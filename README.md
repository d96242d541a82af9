# Smart-contract analyser and visualiser — a Dafny model

This project models the analysis core of a web tool that reads a Solidity
contract, or its JSON ABI, and draws it.

- **The analyser** (`app/lib/contractAnalyzer.ts`). It decides which roles a function serves and which other functions it calls. It builds an `AnalyzedContract` holding the functions, events, state variables, security findings and the role table. It does this from an ABI array or, failing that, from Solidity text.
- **Diagram generators.** From an `AnalyzedContract` the analyser derives three node/edge graphs: an overview flow graph, a UML class diagram, and a state diagram linking functions to the variables they write.
- **Per-function detail graph** (`app/components/FunctionSubFlow.tsx`). It shows a function's inputs, modifiers, called functions and outputs.
- **Node click mapping** of the overview graph (`app/components/DynamicFlowChart.tsx`).
- **The application store** (`app/store/contractStore.ts`). It holds the list of edited contracts, the analysis results and the view state, and provides the actions that change them.

Layout:

| file | module | contents |
|---|---|---|
| `wrappers.dfy`, `seqs.dfy`, `text.dfy` | `Wrappers`, `Seqs`, `Text` | Option/Result, sequence helpers, the string operations the source relies on (`includes`, `trim`, `split`, `join`, `toLowerCase`, `String(n)`, `parseInt`) |
| `contract_model.dfy` | `ContractModel` | the analysed-contract records |
| `roles.dfy` | `Roles` | `determineRole`, `analyzeFunctionDependencies`, the flow type and the role table |
| `source_mode.dfy`, `source_props.dfy` | `SourceMode`, `SourceProps` | `analyzeSoliditySource` and its properties |
| `abi_mode.dfy`, `abi_props.dfy` | `AbiMode`, `AbiProps` | `analyzeABI` and its properties |
| `analyzer.dfy` | `Analyzer` | `analyzeContract`, the dispatch between the two modes |
| `graph.dfy`, `flow_graph.dfy`, `flow_props.dfy`, `flow_click.dfy` | `Graph`, `FlowGraph`, `FlowProps`, `FlowClick` | `generateFlowElements` and the click mapping |
| `uml.dfy` | `Uml` | `generateUMLDiagram` |
| `state_diagram.dfy` | `StateDiagram` | `generateStateDiagram` |
| `sub_flow.dfy` | `SubFlow` | `generateSubFlowElements` |
| `contract_store.dfy` | `ContractStore` | the store as a class `Store` with its actions |

Most loops of the core are methods with loop invariants; each such method is proved equal to a specification function, and lemmas state the properties of that function. Two kinds of loop are not methods. The `exec` loops over the modifier and function-name patterns (contractAnalyzer.ts:204-214) only collect the first capture of each match, so their results are inputs: the lists `modifierNames` and `functionNames` of `SourceInput`. The `filter` and `some` calls inside a builder (for example at :301-303, :317-323 and :743-749) are specification functions that the builder methods call. Regular-expression matching and `JSON.parse` are external to the model: their results are inputs.

- `SourceInput` holds the text plus one record per match of each pattern, including each match's offset.
- `AbiDocument` holds the parsed items plus each item's `JSON.stringify` text.
- `JsonProbe` says whether the text parsed as an array, as another JSON value, or not at all.

## Model

| member | source | states |
|---|---|---|
| Roles.RolesForFacts | app/lib/contractAnalyzer.ts:65-82 | the role list is non-empty, duplicate-free and ordered owner, admin, user. "owner" is present iff the scope mentions `onlyOwner` or the lower-cased name contains "owner"; "admin" likewise. "user" is present iff its own rule holds or neither other role applies; with no rule at all the list is exactly `["user"]` |
| Roles.DetermineRole | app/lib/contractAnalyzer.ts:65-82 | the method's pushes compute the role list whose properties RolesForFacts proves |
| Roles.FlowTypeFacts | app/lib/contractAnalyzer.ts:137-139 | the flow type is owner iff "owner" is a role; admin iff "admin" but not "owner"; system iff neither and the mutability is `view`; user otherwise |
| Roles.DependenciesFacts | app/lib/contractAnalyzer.ts:84-95 | a name is a dependency iff it is among the candidate names, differs from the function itself, and the scope contains that name followed by `(`; there are no more dependencies than candidates |
| Roles.AnalyzeFunctionDependencies | app/lib/contractAnalyzer.ts:84-95 | the loop computes the dependency list that DependenciesFacts characterises |
| Roles.RoleTableStep | app/lib/contractAnalyzer.ts:143-154 | recording one (function, role) pair either appends the function to the existing entry for that role or adds a new entry at the end |
| Roles.FindRole | app/lib/contractAnalyzer.ts:144 | the search returns the position of the first table entry with the role's name, or -1 |
| Roles.FirstRoleIndex | app/lib/contractAnalyzer.ts:144 | when entry k is the first with the name, the search yields k |
| Roles.AddFunctionRoles | app/lib/contractAnalyzer.ts:143-154 | folding the roles of one more function into the table gives the table of the extended list of (function, role) pairs |
| Roles.AnyHasRole | app/lib/contractAnalyzer.ts:179-180 | the result is true iff some function carries the role |
| Roles.HoldersAppend | app/lib/contractAnalyzer.ts:143-154 | the functions recorded under a role for a concatenation of pairs are those of each part, in order |
| Roles.HoldersOfOneFunction | app/lib/contractAnalyzer.ts:143-154 | one function with duplicate-free roles is recorded once under each of its roles and under no other |
| Roles.HoldersAreCarriers | app/lib/contractAnalyzer.ts:143-154 | the functions listed under a role are exactly the functions carrying that role, in declaration order |
| Roles.RolesOfAllPairs | app/lib/contractAnalyzer.ts:143-154 | a role appears in the pairs iff some function carries it |
| Roles.HoldersOfAbsentRole | app/lib/contractAnalyzer.ts:143-154 | a role that never appears has no holders |
| Roles.RoleTableOfFunctions | app/lib/contractAnalyzer.ts:143-154 | the role table has distinct names; it has an entry for a role iff some function carries it; each entry has no permissions and lists exactly the functions carrying its role, in order |
| Roles.RoleFlagsMatchTable | app/lib/contractAnalyzer.ts:179-180 | `hasOwnership` and `hasAccessControl` agree with the presence of the "owner" and "admin" entries of the role table |
| SourceMode.ParseParamOfWords | app/lib/contractAnalyzer.ts:224-229 | a parameter written as words has the first word as type and the second, or "", as name |
| SourceMode.ParseEventParamOfWords | app/lib/contractAnalyzer.ts:291-299 | an event parameter has the first word as type, the last word as name, and is indexed iff one of its words is `indexed` |
| SourceMode.InputsHaveTypes | app/lib/contractAnalyzer.ts:224-229 | blank input segments are dropped, so every input has a non-empty type |
| SourceMode.OutputsKeepBlankSegments | app/lib/contractAnalyzer.ts:231-236 | a non-empty returns list yields one output per comma-separated segment, blank ones included |
| SourceMode.InputsOfDeclarations | app/lib/contractAnalyzer.ts:224-229 | a parameter list made of comma-joined declarations parses back to one input per declaration, with its type and name |
| SourceMode.NonBlankKeepsNotBlank | app/lib/contractAnalyzer.ts:225 | every segment kept by the blank filter has non-blank trimmed text |
| SourceMode.NonBlankOfNonBlank | app/lib/contractAnalyzer.ts:225 | the blank filter keeps a list of non-blank segments unchanged |
| SourceMode.CommaFreeJoin | app/lib/contractAnalyzer.ts:224 | words without commas, joined by spaces, contain no comma |
| SourceMode.FunctionOfFields | app/lib/contractAnalyzer.ts:218-270 | a parsed function keeps the matched name and carries duplicate-free roles. Its visibility defaults to `public` and its mutability to `nonpayable`. It is payable iff the matched mutability is `payable`. Its dependencies are the other declared names called in the text from the function's offset onward |
| SourceMode.FunctionsOfLength | app/lib/contractAnalyzer.ts:218-284 | there is one function per match of the function pattern |
| SourceMode.FunctionsOfIsMap | app/lib/contractAnalyzer.ts:218-284 | the function list is the per-match builder applied to each match in order |
| SourceMode.FunctionsOfAt | app/lib/contractAnalyzer.ts:218-270 | function i is built from match i alone |
| SourceMode.PayableIssuesOfPayables | app/lib/contractAnalyzer.ts:246-254 | each payable finding names a payable function, and every payable function has its finding |
| SourceMode.PayableIssuesAppend | app/lib/contractAnalyzer.ts:246-254 | the findings of a concatenation are those of each part, in order |
| SourceMode.NamesWhenAllOrNothing | app/lib/contractAnalyzer.ts:301-303 | a filter whose test ignores the function keeps all names or none |
| SourceMode.EventsOfAt | app/lib/contractAnalyzer.ts:286-311 | event k is built from event match k alone |
| SourceMode.StatesOfAt | app/lib/contractAnalyzer.ts:313-334 | state variable k is built from state-variable match k alone |
| SourceMode.BuildFunction | app/lib/contractAnalyzer.ts:219-270 | the per-match body computes the function record described by FunctionOfFields |
| SourceMode.RecordFunction | app/lib/contractAnalyzer.ts:244-283 | after one more function, the findings and the role table are those of the extended function list |
| SourceMode.ScanFunction | app/lib/contractAnalyzer.ts:218-284 | one iteration of the function loop extends the functions, findings and role table from a prefix of the matches to the next prefix |
| SourceMode.ScanFunctions | app/lib/contractAnalyzer.ts:218-284 | the function loop produces all functions, their payable findings and the role table of those functions |
| SourceMode.ScanEvents | app/lib/contractAnalyzer.ts:286-311 | the event loop produces one event per match, as EventsOfAt describes |
| SourceMode.ScanStateVariables | app/lib/contractAnalyzer.ts:313-334 | the state-variable loop produces one variable per match, as StatesOfAt describes |
| SourceMode.CheckContract | app/lib/contractAnalyzer.ts:336-362 | the contract-wide checks produce the selfdestruct and tx.origin findings characterised by SourceProps.SourceFindings |
| SourceMode.AnalyzeSoliditySource | app/lib/contractAnalyzer.ts:184-378 | the source-mode analysis computes the model whose properties SourceProps proves |
| SourceProps.FunctionRolesDistinct | app/lib/contractAnalyzer.ts:221 | every source-mode function has duplicate-free roles |
| SourceProps.SourceRoles | app/lib/contractAnalyzer.ts:272-283 | the source-mode role table has distinct names, an entry exactly for the roles some function carries, and lists each role's carriers in order |
| SourceProps.SourceEmitters | app/lib/contractAnalyzer.ts:286-311 | there is one event per match, with the matched name; its related functions are all functions when the text contains `emit <name>`, and none otherwise |
| SourceProps.SourceReadersWriters | app/lib/contractAnalyzer.ts:313-334 | there is one variable per match, with the matched name. It is accessed by all functions when the text mentions its name, and modified by all functions when the text contains `<name> =`. Every writer is also a reader |
| SourceProps.SourceFindings | app/lib/contractAnalyzer.ts:246-254 | the findings begin with one Medium finding per payable function, in order. High findings follow: one for selfdestruct/suicide, then one for tx.origin, each present iff the text mentions it, affecting every function, located at `Contract` |
| SourceProps.EmptySourceGivesEmptyModel | app/lib/contractAnalyzer.ts:184-378 | text with no matches gives the empty contract named `Contract` of version `Unknown` |
| AbiMode.CollectFunctionNames | app/lib/contractAnalyzer.ts:117-119 | the names of the function items, or failure when an item is `null` |
| AbiMode.AbiStep | app/lib/contractAnalyzer.ts:121-167 | one item extends the functions, events and role table to the next prefix of items; it fails exactly on a function item without a name |
| AbiMode.EmittersIn | app/lib/contractAnalyzer.ts:156-158 | the related functions of an event are the earlier functions whose name occurs in the event's text |
| AbiMode.AnalyzeABI | app/lib/contractAnalyzer.ts:110-182 | the ABI-mode analysis computes the model whose properties AbiProps proves, or fails where the source throws |
| AbiProps.NamesAppend | app/lib/contractAnalyzer.ts:117-119 | the names of a concatenation are the names of each part |
| AbiProps.AbiFunctionNames | app/lib/contractAnalyzer.ts:117-154 | the ABI functions carry exactly the function items' names, in order |
| AbiProps.AbiFunctionOrigin | app/lib/contractAnalyzer.ts:121-141 | every ABI function is built from one function item |
| AbiProps.AbiFunctionFields | app/lib/contractAnalyzer.ts:122-141 | an ABI function keeps the item's name and mutability, has kind `function` and no modifiers, and defaults its visibility to `public` and missing inputs and outputs to empty. It is payable iff the mutability is `payable`. Its roles follow the role rules on the item's text; its dependencies are the other function names called in the whole document |
| AbiProps.AbiRoles | app/lib/contractAnalyzer.ts:143-154 | the ABI role table has distinct names, an entry exactly for the roles some function carries, and lists each role's carriers |
| AbiProps.AbiModelShape | app/lib/contractAnalyzer.ts:169-181 | the ABI model fails iff some item is `null` or a nameless function. Otherwise it is named `Contract`, has version `Unknown`, no license, state variables, findings, parents or modifiers, and one function per function item |
| AbiProps.NamesInFacts | app/lib/contractAnalyzer.ts:156-158 | a name is related iff it belongs to a function and occurs in the text |
| AbiProps.AbiFunctionsPrefix | app/lib/contractAnalyzer.ts:121-154 | the functions built from a prefix of the items are a prefix of all the functions |
| AbiProps.EventAtOfInit | app/lib/contractAnalyzer.ts:155-166 | an event item's record does not depend on items after it |
| AbiProps.AbiEventOrigin | app/lib/contractAnalyzer.ts:155-166 | every ABI event comes from one event item |
| AbiProps.EmittersAt | app/lib/contractAnalyzer.ts:155-166 | an event keeps the item's name; its related functions are the functions from earlier items whose name occurs in the event's text, all of them functions of the model |
| AbiProps.AbiEmitters | app/lib/contractAnalyzer.ts:155-166 | each event of the model comes from an event item and relates only functions of the model |
| Analyzer.AnalyzeContract | app/lib/contractAnalyzer.ts:97-108 | the method is the dispatch whose cases AnalysisDispatch states |
| Analyzer.AnalysisDispatch | app/lib/contractAnalyzer.ts:97-108 | analysis fails iff the text is JSON but not an array, with message `Invalid contract format`. An array that the ABI analysis accepts gives the ABI model. Non-JSON text, or an array the ABI analysis rejects, gives the source model |
| Analyzer.EmptyTextGivesEmptyModel | app/lib/contractAnalyzer.ts:97-108 | empty text is analysed as source and gives the empty contract |
| FlowGraph.GenerateFlowElements | app/lib/contractAnalyzer.ts:380-624 | the overview graph builders produce the graph described by the FlowProps lemmas |
| FlowProps.FlowNodeCount | app/lib/contractAnalyzer.ts:380-624 | one node per role, function and event, plus the contract, plus a state box when there are state variables and a security box when there are findings |
| FlowProps.RoleNodeAt | app/lib/contractAnalyzer.ts:410-435 | role k is node `role-<name>` at y 150 + k·100; the state box comes right after the roles, at y 150 |
| FlowProps.FunctionNodeAt | app/lib/contractAnalyzer.ts:469-525 | function i is node `function-<i>` at y 150 + i·150 |
| FlowProps.EventNodeAt | app/lib/contractAnalyzer.ts:527-574 | event k is node `event-<k>` at y 100 + k·150 |
| FlowProps.SecurityNodeLast | app/lib/contractAnalyzer.ts:576-622 | with findings, the last node is the security box, at y max(150 + 150·\|functions\|, 500) |
| FlowProps.FunctionEdgesHave | app/lib/contractAnalyzer.ts:469-525 | the edges of each function loop iteration are kept in the whole function edge list |
| FlowProps.EventEdgesHave | app/lib/contractAnalyzer.ts:527-574 | the edges of each event iteration are kept |
| FlowProps.IssueEdgesHave | app/lib/contractAnalyzer.ts:576-622 | the edges of each finding are kept |
| FlowProps.FlowEdgeGroups | app/lib/contractAnalyzer.ts:380-624 | the whole edge list contains the edges of every role, every function, every event and every finding, the state edge, and the contract–security edge |
| FlowProps.ContractEdges | app/lib/contractAnalyzer.ts:380-624 | the contract is linked to each role, each function, each event, the state box when there are variables, and the security box when there are findings |
| FlowProps.CallerEdgesFacts | app/lib/contractAnalyzer.ts:553-564 | every caller edge comes from a function whose name is listed. Every listed name that is a function gets an edge from its first function with that name |
| FlowProps.EmitterEdges | app/lib/contractAnalyzer.ts:527-574 | an event's edges come from the contract or from functions it relates; every related function present gets its edge |
| FlowProps.SecurityCallerEdges | app/lib/contractAnalyzer.ts:576-622 | each finding links exactly the affected functions that exist to the security box |
| FlowProps.DependencyTargets | app/lib/contractAnalyzer.ts:505-514 | a dependency targets the first function of that name. A name no function has targets `function--1` |
| FlowClick.ClickOnFunctionNode | app/components/DynamicFlowChart.tsx:64-68 | clicking node `function-<i>` selects function i |
| FlowClick.ClickOnDanglingTarget | app/components/DynamicFlowChart.tsx:64-68 | clicking `function--1` selects `undefined`, since its second `-`-separated part is empty |
| Uml.GenerateUMLDiagram | app/lib/contractAnalyzer.ts:626-716 | the UML builders produce the diagram that UmlShape describes |
| Uml.UmlShape | app/lib/contractAnalyzer.ts:626-716 | the diagram has the class box, one box per parent at y -100 captioned with the parent's name, and one box per event at y 100 + k·150. It has exactly one edge per parent, from `parent-<k>` into the contract, not animated |
| Uml.MemberMarkers | app/lib/contractAnalyzer.ts:639-646 | a member line starts with `-` exactly for private members and with `+` otherwise |
| Uml.FunctionLineEnd | app/lib/contractAnalyzer.ts:643-647 | a function line ends with its comma-joined output types, or with `void` when they give no text |
| StateDiagram.GenerateStateDiagram | app/lib/contractAnalyzer.ts:718-785 | the state-diagram builders produce the graph the StateDiagram lemmas describe |
| StateDiagram.WritersFacts | app/lib/contractAnalyzer.ts:743-749 | a function is drawn iff it is a function of the contract that some variable lists as a writer |
| StateDiagram.WritersUniform | app/lib/contractAnalyzer.ts:743-749 | when all writer lists are the full name list or empty, every function is drawn or none is |
| StateDiagram.WritersAllOrNothing | app/lib/contractAnalyzer.ts:743-749 | the same, for writer lists that are all the function names or empty |
| StateDiagram.SourceWriters | app/lib/contractAnalyzer.ts:743-749 | for a source-mode model, either all functions are drawn, keeping their overview numbering, or none is |
| StateDiagram.StateNodesAt | app/lib/contractAnalyzer.ts:723-768 | variable k is node `state-<k>` at y k·150; drawn function j follows as `function-<j>` at y j·150 |
| StateDiagram.ModifiesEdgesMembers | app/lib/contractAnalyzer.ts:770-781 | one function's edges go to exactly the variables that list it as a writer |
| StateDiagram.WriterEdgesMembers | app/lib/contractAnalyzer.ts:770-781 | the edges of the drawn functions are exactly the writer/variable pairs |
| StateDiagram.WriterEdgesDistinct | app/lib/contractAnalyzer.ts:770-781 | no edge is pushed twice: different (writer, variable) pairs give edges with different ids, sources or targets |
| StateDiagram.StateEdges | app/lib/contractAnalyzer.ts:770-781 | an edge is in the diagram iff it joins a drawn function j to a variable k listing it as writer, labelled `modifies` and animated; the edge list has no repeats, so there is exactly one edge per such pair |
| SubFlow.GenerateSubFlowElements | app/components/FunctionSubFlow.tsx:21-159 | the four loops and the running y offset produce the graph the SubFlow lemmas describe |
| SubFlow.SubFlowCounts | app/components/FunctionSubFlow.tsx:21-159 | one box per input, modifier, dependency and output plus the function box, which comes first; one edge per box besides it |
| SubFlow.SubFlowEdgeOf | app/components/FunctionSubFlow.tsx:45-156 | edge m-1 joins box m to the function box, towards the function for inputs and away from it otherwise, animated |
| SubFlow.SubFlowColumn | app/components/FunctionSubFlow.tsx:42-131 | the dependency rows start below every input and modifier row, the output rows below every dependency row, and with no dependencies the outputs start at y 230 |
| SubFlow.SubFlowBoxes | app/components/FunctionSubFlow.tsx:45-156 | each box has the id `<group>-<i>`, its row and its caption; an unnamed output reads `return` |
| ContractStore.RunAnalyses | app/store/contractStore.ts:109-120 | the per-contract loop records each success under its id with the editor's name, and appends an error line for each failure |
| ContractStore.RunAnalysis | app/store/contractStore.ts:90-143 | the whole analysis action, without the store, computes the Outcome that the Analysis lemmas describe |
| ContractStore.Store.constructor | app/store/contractStore.ts:36-42 | the initial state: one empty contract `1` named `Contract 1`, selected; no results; visualisation tab; no error, function or sub-flow |
| ContractStore.Store.AddContract | app/store/contractStore.ts:44-54 | appends an empty contract with a fresh id, keeping ids distinct; while nothing has been removed that id is the source's `length + 1` |
| ContractStore.Store.RemoveContract | app/store/contractStore.ts:56-72 | with more than one contract: drops the contract and its result, and moves the selection to the first remaining contract if it was removed. With one contract it changes nothing. It keeps at least one contract |
| ContractStore.Store.UpdateContractSource | app/store/contractStore.ts:74-80 | replaces the source of the contract with that id, nothing else |
| ContractStore.Store.UpdateContractName | app/store/contractStore.ts:82-88 | replaces the name of the contract with that id, nothing else |
| ContractStore.Store.AnalyzeContracts | app/store/contractStore.ts:90-150 | sets results, error and selection to the analysis outcome; when some contract succeeded, resets tab, function and sub-flow |
| ContractStore.Store.SetSelectedContract | app/store/contractStore.ts:152 | sets the selection only |
| ContractStore.Store.SetActiveTab | app/store/contractStore.ts:153 | sets the tab only |
| ContractStore.Store.SetError | app/store/contractStore.ts:154 | sets the error only |
| ContractStore.Store.SetSelectedFunction | app/store/contractStore.ts:155 | sets the selected function only |
| ContractStore.Store.SetShowSubFlow | app/store/contractStore.ts:156 | sets the sub-flow flag only |
| ContractStore.FreshId | app/store/contractStore.ts:44-54 | a counter above every issued id gives an id not in use |
| ContractStore.FreshAdd | app/store/contractStore.ts:44-54 | adding the contract with the counter's id keeps ids distinct and all of them issued below the next counter |
| ContractStore.DistinctIds | app/store/contractStore.ts:56-72 | distinct ids make distinct contracts |
| ContractStore.FilterIds | app/store/contractStore.ts:58 | filtering keeps ids distinct and introduces none |
| ContractStore.RemovalFacts | app/store/contractStore.ts:56-72 | removing from more than one distinct-id contract leaves at least one. The remaining contracts are exactly the others, and the remaining results belong to remaining contracts |
| ContractStore.AnalyzeAllKeys | app/store/contractStore.ts:109-120 | result ids are distinct and are exactly the map's keys; a non-empty batch without failures yields some result |
| ContractStore.AnalyzeAllMembers | app/store/contractStore.ts:109-120 | an id has a result iff its contract analysed successfully. There is an error iff some contract failed, iff the error text is non-empty |
| ContractStore.AnalyzeAllResult | app/store/contractStore.ts:111-115 | a successful contract's result is the analysis with the contract's own name |
| ContractStore.ToAnalyzeFacts | app/store/contractStore.ts:98 | exactly the contracts with non-blank source are analysed |
| ContractStore.AnalysisKeys | app/store/contractStore.ts:90-143 | the outcome's ids are distinct, equal the result keys and belong to edited contracts |
| ContractStore.AnalyzedIdsPresent | app/store/contractStore.ts:98-120 | every analysed id belongs to an edited contract |
| ContractStore.AnalysisWithoutText | app/store/contractStore.ts:100-106 | with no source text: the "No contracts to analyze" error, no results, no view reset; the view is reset iff something was analysed |
| ContractStore.AnalysisStores | app/store/contractStore.ts:109-143 | a contract with text that analyses successfully ends up in the results under its id, with its name |
| ContractStore.AnalysisAllFailed | app/store/contractStore.ts:122-129 | when nothing is stored but some contract has text, every such contract failed and the error is the non-empty message |
| ContractStore.FirstAnalyzedId | app/store/contractStore.ts:97-132 | the first key of the new map is the id of the first contract with text whose analysis succeeds |
| ContractStore.AnalysisSelection | app/store/contractStore.ts:132-143 | after a reset, there is no error iff every contract succeeded. The selection is an analysed id: the previous selection when that one was analysed, and otherwise the id of the first contract with text whose analysis succeeded |
| ContractStore.EditLaws | app/store/contractStore.ts:74-88 | edits keep the ids; a second edit of the same field overrides the first; source and name edits commute |
| ContractStore.WithSourceAt | app/store/contractStore.ts:74-80 | only the matching contract's source changes |
| ContractStore.DuplicateIdAfterRemove | app/store/contractStore.ts:44-72 | under the source's `length + 1` numbering, removing `1` from [1, 2] and adding gives ids [2, 2]. Removing `2` then empties the list |

## Left out

- Regular-expression matching, `JSON.parse` and `JSON.stringify` are not modelled. Their results are inputs to the model: match records with offsets, parsed ABI items with their serialised text, and the parse outcome.
- `toLowerCase` is modelled for ASCII letters only.
- ABI parameters are projected onto name, type and `indexed`. Other JSON fields are outside the model.
- A non-string ABI function name is modelled as a missing one. A nameless ABI event is given the name "".
- `parseInt` without a radix is modelled as leading white space, an optional sign, then the longest run of decimal digits, or of hexadecimal digits after `0x`, with `None` for `NaN`; so `"1.5"` gives 1 and `"12abc"` gives 12. The result is an unbounded integer, not a double, so precision loss beyond 2^53 is not modelled.
- Node labels, styles and x coordinates are left out. The exceptions are the UML class label, the UML parent captions, the state diagram's `modifies` labels and the sub-flow captions. The overview function node's label, which shows its state mutability, is left out.
- The store's `analyzeContracts` outer catch (`Error analyzing contracts: …`) is unreachable in the model: the analyser is a total parameter, and `analyzeContract`'s own exceptions are per-contract failures.
- The store calls the analyser as a parameter. The analyser itself is `Analyzer.Analysis`.
- `addContractsFromFiles` is left out: it reads files asynchronously. It also uses the same `length + i + 1` numbering as `addContract`, so it has the same duplicate-id problem.
- Component rendering, React hooks and layout are outside the model. So is selection persistence across renders.
- The empty or blank text is analysed as Solidity source and gives the empty contract. This follows `analyzeContract` (contractAnalyzer.ts:97-104): blank text is not JSON, so it goes to source mode and raises no error.
- ContractStore.Store.AddContract: it does not reproduce the source's `length + 1` id. It issues ids from a counter. The two agree while no contract has been removed; see Findings.

## Findings

| source | as written | input that shows it | evidently intended | confidence | as-written member | corrected member |
|---|---|---|---|---|---|---|
| app/store/contractStore.ts:44-54 | new id is `String(contracts.length + 1)` | contracts [1, 2]; remove `1`; add → ids [2, 2]. Removing `2` then leaves no contract, and reading the first remaining id fails | new contracts get an id not in use | not executed | ContractStore.DuplicateIdAfterRemove | ContractStore.FreshAdd |
