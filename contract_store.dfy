/** The application state of app/store/contractStore.ts: the list of
    contract inputs the user edits, the analyses of the last run keyed by
    contract id (a JavaScript `Map`, so its keys keep insertion order), the
    selection and the view flags, with the actions that change them. The
    analyser is a parameter of the analysis action, so that the store stands
    on its own. */
module ContractStore {
  import opened Wrappers
  import opened Text
  import opened Seqs
  import opened ContractModel

  datatype ContractInput = ContractInput(id: string, name: string, source: string)

  const Visualization := "visualization"
  const NamePrefix := "Contract "
  const NoContractsMessage := "No contracts to analyze. Please add contract source code."
  const ErrorPrefix := "Error analyzing "
  const Colon := ": "
  const NewLine := "\n"

  function Ids(cs: seq<ContractInput>): seq<string> {
    seq(|cs|, i requires 0 <= i < |cs| => cs[i].id)
  }

  /** An id the store handed out before `n`: the decimal rendering of a
      number in `1 .. n - 1`. */
  predicate Issued(id: string, n: nat) {
    exists k :: 1 <= k < n && id == NatToString(k)
  }

  // ---------------------------------------------------------------------
  // The list operations behind the actions

  /** `contracts.filter(c => c.id !== id)`. */
  function Without(cs: seq<ContractInput>, id: string): seq<ContractInput> {
    Filter(cs, (c: ContractInput) => c.id != id)
  }

  /** `new Map(analyzed).delete(id)`, on the key order. */
  function WithoutKey(keys: seq<string>, id: string): seq<string> {
    Filter(keys, (k: string) => k != id)
  }

  /** `contracts.map(c => c.id === id ? { ...c, source } : c)`. */
  function WithSource(cs: seq<ContractInput>, id: string, source: string): seq<ContractInput> {
    seq(|cs|, i requires 0 <= i < |cs| => if cs[i].id == id then cs[i].(source := source) else cs[i])
  }

  /** `contracts.map(c => c.id === id ? { ...c, name } : c)`. */
  function WithName(cs: seq<ContractInput>, id: string, name: string): seq<ContractInput> {
    seq(|cs|, i requires 0 <= i < |cs| => if cs[i].id == id then cs[i].(name := name) else cs[i])
  }

  /** A contract has text when its trimmed text is not empty. */
  predicate HasText(c: ContractInput) { Trim(c.source) != "" }

  /** `contracts.filter(c => c.source.trim())`: the inputs with some text. */
  function ToAnalyze(cs: seq<ContractInput>): seq<ContractInput> {
    Filter(cs, (c: ContractInput) => HasText(c))
  }

  /** The line a failed analysis adds to the error message. */
  function FailureLine(name: string, message: string): string {
    ErrorPrefix + name + Colon + message + NewLine
  }

  /** What the analysis loop has gathered: the keys of `newAnalyzed` in
      insertion order, its entries, `hasError` and `errorMessage`. */
  datatype Batch = Batch(ids: seq<string>, results: map<string, AnalyzedContract>, failed: bool, message: string)

  /** The analysis loop over `cs`: a success stores the analysis under the
      contract's id with the contract's own name, a failure adds its line to
      the message. */
  function AnalyzeAll(cs: seq<ContractInput>, analyze: string -> Result<AnalyzedContract, string>): Batch
    decreases |cs|
  {
    if cs == [] then Batch([], map[], false, "")
    else
      var b := AnalyzeAll(cs[..|cs| - 1], analyze);
      var c := Last(cs);
      match analyze(c.source)
      case Success(a) =>
        Batch(if c.id in b.results then b.ids else b.ids + [c.id], b.results[c.id := a.(name := c.name)], b.failed, b.message)
      case Failure(m) =>
        Batch(b.ids, b.results, true, b.message + FailureLine(c.name, m))
  }

  /** The `forEach` over the contracts to analyse, with its `try`/`catch`. */
  method RunAnalyses(todo: seq<ContractInput>, analyze: string -> Result<AnalyzedContract, string>)
    returns (ids: seq<string>, results: map<string, AnalyzedContract>, hasError: bool, message: string)
    ensures Batch(ids, results, hasError, message) == AnalyzeAll(todo, analyze)
  {
    ids, results, hasError, message := [], map[], false, "";
    var i := 0;
    while i < |todo|
      invariant 0 <= i <= |todo|
      invariant Batch(ids, results, hasError, message) == AnalyzeAll(todo[..i], analyze)
    {
      var c := todo[i];
      assert todo[..i + 1][..i] == todo[..i];
      match analyze(c.source) {
        case Success(a) =>
          if c.id !in results {
            ids := ids + [c.id];
          }
          results := results[c.id := a.(name := c.name)];
        case Failure(m) =>
          hasError := true;
          message := message + FailureLine(c.name, m);
      }
      i := i + 1;
    }
    assert todo[..i] == todo;
  }

  /** What an analysis run leaves behind: the key order and entries of the
      new map, the error, the selection, and whether the view is reset. */
  datatype Outcome = Outcome(
    ids: seq<string>,
    results: map<string, AnalyzedContract>,
    error: Option<string>,
    selection: string,
    resetView: bool)

  /** The outcome of `analyzeContracts` on the contracts `cs` with `selected`
      selected. */
  function Analysis(cs: seq<ContractInput>, selected: string, analyze: string -> Result<AnalyzedContract, string>): Outcome {
    var todo := ToAnalyze(cs);
    var b := AnalyzeAll(todo, analyze);
    if todo == [] then Outcome([], map[], Some(NoContractsMessage), selected, false)
    else if b.failed && |b.ids| == 0 then Outcome([], map[], Some(b.message), selected, false)
    else
      AnalyzeAllKeys(todo, analyze);
      Outcome(b.ids, b.results, if b.failed then Some(b.message) else None,
              if selected != "" && selected in b.results then selected else b.ids[0], true)
  }

  /** The body of `analyzeContracts` up to its final `set`. */
  method RunAnalysis(cs: seq<ContractInput>, selected: string, analyze: string -> Result<AnalyzedContract, string>)
    returns (o: Outcome)
    ensures o == Analysis(cs, selected, analyze)
  {
    var todo := ToAnalyze(cs);
    if |todo| == 0 {
      return Outcome([], map[], Some(NoContractsMessage), selected, false);
    }
    var ids, results, hasError, message := RunAnalyses(todo, analyze);
    if hasError && |ids| == 0 {
      return Outcome([], map[], Some(message), selected, false);
    }
    AnalyzeAllKeys(todo, analyze);
    var firstAnalyzedId := ids[0];
    var selection := if selected != "" && selected in results then selected else firstAnalyzedId;
    o := Outcome(ids, results, if hasError then Some(message) else None, selection, true);
  }

  // ---------------------------------------------------------------------
  // The store

  class Store {
    var contracts: seq<ContractInput>
    /** The keys of `analyzedContracts`, in insertion order. */
    var analyzedIds: seq<string>
    var analyzed: map<string, AnalyzedContract>
    var selectedContract: string
    var activeTab: string
    var error: Option<string>
    var selectedFunction: Option<ContractFunction>
    var showSubFlow: bool
    /** The number the next new contract's id is made from. */
    var nextId: nat

    /** There is always at least one contract; ids are distinct and were all
        handed out before `nextId`; the key order lists each analysed id
        once, and only ids of present contracts. */
    ghost predicate Valid()
      reads this
    {
      && |contracts| >= 1
      && NoDup(Ids(contracts))
      && (forall i :: 0 <= i < |contracts| ==> Issued(contracts[i].id, nextId))
      && NoDup(analyzedIds)
      && (forall id :: id in analyzed <==> id in analyzedIds)
      && (forall id :: id in analyzedIds ==> id in Ids(contracts))
    }

    /** The initial state: one empty contract `1`, selected, nothing
        analysed, the visualization tab, no error, no function shown. */
    constructor ()
      ensures Valid()
      ensures contracts == [ContractInput("1", "Contract 1", "")]
      ensures analyzedIds == [] && analyzed == map[]
      ensures selectedContract == "1" && activeTab == Visualization
      ensures error == None && selectedFunction == None && !showSubFlow
    {
      contracts := [ContractInput("1", "Contract 1", "")];
      analyzedIds, analyzed := [], map[];
      selectedContract := "1";
      activeTab := Visualization;
      error := None;
      selectedFunction := None;
      showSubFlow := false;
      nextId := 2;
      assert NatToString(1) == "1";
      assert Issued("1", 2);
    }

    /** `addContract`: appends an empty contract named `Contract <id>`. The
        id is a number never handed out before; as long as no contract was
        removed, it is `contracts.length + 1`, as in the original. */
    method AddContract()
      requires Valid()
      modifies this
      ensures Valid()
      ensures contracts == old(contracts) + [NewContract(old(nextId))]
      ensures nextId == old(nextId) + 1
      ensures old(nextId) == |old(contracts)| + 1 ==> Last(contracts).id == NatToString(|old(contracts)| + 1)
      ensures analyzedIds == old(analyzedIds) && analyzed == old(analyzed)
      ensures selectedContract == old(selectedContract) && activeTab == old(activeTab) && error == old(error)
      ensures selectedFunction == old(selectedFunction) && showSubFlow == old(showSubFlow)
    {
      var newId := NatToString(nextId);
      assert Issued(contracts[0].id, nextId);
      ghost var k0 :| 1 <= k0 < nextId && contracts[0].id == NatToString(k0);
      FreshAdd(contracts, nextId);
      ghost var before := contracts;
      contracts := contracts + [ContractInput(newId, NamePrefix + newId, "")];
      assert Ids(contracts) == Ids(before) + [newId];
      nextId := nextId + 1;
    }

    /** `removeContract`: unless only one contract is left, drops the
        contracts with that id and their analysis; if that was the selected
        contract, the first remaining one is selected. */
    method RemoveContract(id: string)
      requires Valid()
      modifies this
      ensures Valid()
      ensures |old(contracts)| > 1 ==>
        && contracts == Without(old(contracts), id)
        && analyzedIds == WithoutKey(old(analyzedIds), id)
        && analyzed == old(analyzed) - {id}
        && selectedContract == (if old(selectedContract) == id then contracts[0].id else old(selectedContract))
      ensures |old(contracts)| <= 1 ==>
        contracts == old(contracts) && analyzedIds == old(analyzedIds) && analyzed == old(analyzed)
        && selectedContract == old(selectedContract)
      ensures nextId == old(nextId) && activeTab == old(activeTab) && error == old(error)
      ensures selectedFunction == old(selectedFunction) && showSubFlow == old(showSubFlow)
    {
      if |contracts| > 1 {
        var newContracts := Without(contracts, id);
        var newIds := WithoutKey(analyzedIds, id);
        RemovalFacts(contracts, analyzedIds, id);
        var newSelected := if selectedContract == id then newContracts[0].id else selectedContract;
        contracts, analyzedIds, analyzed, selectedContract := newContracts, newIds, analyzed - {id}, newSelected;
      }
    }

    /** `updateContractSource`. */
    method UpdateContractSource(id: string, source: string)
      requires Valid()
      modifies this
      ensures Valid()
      ensures contracts == WithSource(old(contracts), id, source)
      ensures analyzedIds == old(analyzedIds) && analyzed == old(analyzed) && nextId == old(nextId)
      ensures selectedContract == old(selectedContract) && activeTab == old(activeTab) && error == old(error)
      ensures selectedFunction == old(selectedFunction) && showSubFlow == old(showSubFlow)
    {
      assert Ids(WithSource(contracts, id, source)) == Ids(contracts);
      contracts := WithSource(contracts, id, source);
    }

    /** `updateContractName`. */
    method UpdateContractName(id: string, name: string)
      requires Valid()
      modifies this
      ensures Valid()
      ensures contracts == WithName(old(contracts), id, name)
      ensures analyzedIds == old(analyzedIds) && analyzed == old(analyzed) && nextId == old(nextId)
      ensures selectedContract == old(selectedContract) && activeTab == old(activeTab) && error == old(error)
      ensures selectedFunction == old(selectedFunction) && showSubFlow == old(showSubFlow)
    {
      assert Ids(WithName(contracts, id, name)) == Ids(contracts);
      contracts := WithName(contracts, id, name);
    }

    /** `analyzeContracts`: the analyses, the error and the selection
        become those of `Analysis`; when that says so, the view also returns
        to the visualization tab with no function shown. The contracts never
        change. */
    method AnalyzeContracts(analyze: string -> Result<AnalyzedContract, string>)
      requires Valid()
      modifies this
      ensures Valid()
      ensures contracts == old(contracts) && nextId == old(nextId)
      ensures var o := Analysis(old(contracts), old(selectedContract), analyze);
        && analyzedIds == o.ids && analyzed == o.results && error == o.error && selectedContract == o.selection
        && (o.resetView ==> activeTab == Visualization && selectedFunction == None && !showSubFlow)
        && (!o.resetView ==>
              activeTab == old(activeTab) && selectedFunction == old(selectedFunction) && showSubFlow == old(showSubFlow))
    {
      var o := RunAnalysis(contracts, selectedContract, analyze);
      AnalysisKeys(contracts, selectedContract, analyze);
      analyzedIds, analyzed, error, selectedContract := o.ids, o.results, o.error, o.selection;
      if o.resetView {
        activeTab := Visualization;
        selectedFunction := None;
        showSubFlow := false;
      }
    }

    method SetSelectedContract(id: string)
      modifies this
      ensures selectedContract == id
      ensures contracts == old(contracts) && analyzedIds == old(analyzedIds) && analyzed == old(analyzed)
      ensures nextId == old(nextId) && activeTab == old(activeTab) && error == old(error)
      ensures selectedFunction == old(selectedFunction) && showSubFlow == old(showSubFlow)
    {
      selectedContract := id;
    }

    method SetActiveTab(tab: string)
      modifies this
      ensures activeTab == tab
      ensures contracts == old(contracts) && analyzedIds == old(analyzedIds) && analyzed == old(analyzed)
      ensures nextId == old(nextId) && selectedContract == old(selectedContract) && error == old(error)
      ensures selectedFunction == old(selectedFunction) && showSubFlow == old(showSubFlow)
    {
      activeTab := tab;
    }

    method SetError(e: Option<string>)
      modifies this
      ensures error == e
      ensures contracts == old(contracts) && analyzedIds == old(analyzedIds) && analyzed == old(analyzed)
      ensures nextId == old(nextId) && selectedContract == old(selectedContract) && activeTab == old(activeTab)
      ensures selectedFunction == old(selectedFunction) && showSubFlow == old(showSubFlow)
    {
      error := e;
    }

    method SetSelectedFunction(f: Option<ContractFunction>)
      modifies this
      ensures selectedFunction == f
      ensures contracts == old(contracts) && analyzedIds == old(analyzedIds) && analyzed == old(analyzed)
      ensures nextId == old(nextId) && selectedContract == old(selectedContract) && activeTab == old(activeTab)
      ensures error == old(error) && showSubFlow == old(showSubFlow)
    {
      selectedFunction := f;
    }

    method SetShowSubFlow(show: bool)
      modifies this
      ensures showSubFlow == show
      ensures contracts == old(contracts) && analyzedIds == old(analyzedIds) && analyzed == old(analyzed)
      ensures nextId == old(nextId) && selectedContract == old(selectedContract) && activeTab == old(activeTab)
      ensures error == old(error) && selectedFunction == old(selectedFunction)
    {
      showSubFlow := show;
    }
  }

  // ---------------------------------------------------------------------
  // Properties

  /** The decimal rendering of `n` is not the id of any contract whose id
      was handed out before `n`. */
  lemma FreshId(cs: seq<ContractInput>, n: nat)
    requires forall i :: 0 <= i < |cs| ==> Issued(cs[i].id, n)
    ensures NatToString(n) !in Ids(cs)
  {
    ParseNatToString(n);
    forall i | 0 <= i < |cs| ensures Ids(cs)[i] != NatToString(n) {
      var k :| 1 <= k < n && cs[i].id == NatToString(k);
      ParseNatToString(k);
    }
  }

  /** The new contract of the corrected `addContract`, numbered `n`. */
  function NewContract(n: nat): ContractInput {
    ContractInput(NatToString(n), NamePrefix + NatToString(n), "")
  }

  /** Adding contract `n` to contracts whose distinct ids were all handed
      out before `n` keeps the ids distinct, and all of them are then handed
      out before `n + 1`. */
  lemma FreshAdd(cs: seq<ContractInput>, n: nat)
    requires n >= 1
    requires NoDup(Ids(cs)) && forall i :: 0 <= i < |cs| ==> Issued(cs[i].id, n)
    ensures var after := cs + [NewContract(n)];
      NoDup(Ids(after)) && forall i :: 0 <= i < |after| ==> Issued(after[i].id, n + 1)
  {
    var after := cs + [NewContract(n)];
    FreshId(cs, n);
    assert Ids(after) == Ids(cs) + [NatToString(n)];
    forall i | 0 <= i < |cs| ensures Issued(after[i].id, n + 1) {
      assert Issued(cs[i].id, n);
      var k :| 1 <= k < n && cs[i].id == NatToString(k);
      assert after[i] == cs[i];
    }
    assert Issued(after[|cs|].id, n + 1);
  }

  /** Distinct ids make distinct contracts. */
  lemma DistinctIds(cs: seq<ContractInput>)
    requires NoDup(Ids(cs))
    ensures NoDup(cs)
  {
    forall i, j | 0 <= i < j < |cs| ensures cs[i] != cs[j] {
      assert Ids(cs)[i] != Ids(cs)[j];
    }
  }

  /** A filter keeps ids distinct, and keeps only ids that were there. */
  lemma FilterIds(cs: seq<ContractInput>, keep: ContractInput -> bool)
    requires NoDup(Ids(cs))
    ensures NoDup(Ids(Filter(cs, keep)))
    ensures forall x :: x in Ids(Filter(cs, keep)) ==> x in Ids(cs)
  {
    DistinctIds(cs);
    FilterFacts(cs, keep);
    var f := Filter(cs, keep);
    forall j, k | 0 <= j < k < |f| ensures Ids(f)[j] != Ids(f)[k] {
      assert f[j] in cs && f[k] in cs;
      var p :| 0 <= p < |cs| && cs[p] == f[j];
      var q :| 0 <= q < |cs| && cs[q] == f[k];
      if p < q {
        assert Ids(cs)[p] != Ids(cs)[q];
      } else {
        assert Ids(cs)[q] != Ids(cs)[p];
      }
    }
    forall x | x in Ids(f) ensures x in Ids(cs) {
      var j :| 0 <= j < |f| && f[j].id == x;
      assert f[j] in cs;
      var p :| 0 <= p < |cs| && cs[p] == f[j];
      assert Ids(cs)[p] == x;
    }
  }

  /** Removing an id from a list of at least two contracts with distinct
      ids leaves at least one contract, keeps the other contracts and their
      ids distinct, and leaves only ids of remaining contracts among the
      analysed keys. */
  lemma RemovalFacts(cs: seq<ContractInput>, keys: seq<string>, id: string)
    requires |cs| > 1 && NoDup(Ids(cs)) && NoDup(keys)
    requires forall k :: k in keys ==> k in Ids(cs)
    ensures |Without(cs, id)| >= 1
    ensures forall c :: c in Without(cs, id) <==> c in cs && c.id != id
    ensures NoDup(Ids(Without(cs, id)))
    ensures NoDup(WithoutKey(keys, id))
    ensures forall k :: k in WithoutKey(keys, id) <==> k in keys && k != id
    ensures forall k :: k in WithoutKey(keys, id) ==> k in Ids(Without(cs, id))
  {
    var keep := (c: ContractInput) => c.id != id;
    FilterFacts(cs, keep);
    FilterIds(cs, keep);
    FilterFacts(keys, (k: string) => k != id);
    var r := Without(cs, id);
    assert Ids(cs)[0] != Ids(cs)[1];
    var c := if cs[0].id != id then cs[0] else cs[1];
    assert c in r;
    forall k | k in WithoutKey(keys, id) ensures k in Ids(r) {
      var i :| 0 <= i < |cs| && cs[i].id == k;
      assert cs[i] in r;
      var j :| 0 <= j < |r| && r[j] == cs[i];
      assert Ids(r)[j] == k;
    }
  }

  /** The analysis loop lists each stored id once and stores an analysis
      for exactly the listed ids; when nothing failed, something is stored. */
  lemma {:induction false} AnalyzeAllKeys(cs: seq<ContractInput>, analyze: string -> Result<AnalyzedContract, string>)
    ensures var b := AnalyzeAll(cs, analyze);
      && NoDup(b.ids)
      && (forall id :: id in b.results <==> id in b.ids)
      && (cs != [] && !b.failed ==> |b.ids| > 0)
    decreases |cs|
  {
    if cs != [] {
      AnalyzeAllKeys(cs[..|cs| - 1], analyze);
    }
  }

  /** The loop lists exactly the ids of the contracts whose analysis
      succeeded, fails exactly when some analysis failed, and has a message
      exactly when it failed. */
  lemma {:induction false} AnalyzeAllMembers(cs: seq<ContractInput>, analyze: string -> Result<AnalyzedContract, string>)
    ensures var b := AnalyzeAll(cs, analyze);
      && (forall id :: id in b.ids <==> exists i :: 0 <= i < |cs| && cs[i].id == id && analyze(cs[i].source).Success?)
      && (b.failed <==> exists i :: 0 <= i < |cs| && analyze(cs[i].source).Failure?)
      && (b.failed <==> b.message != "")
    decreases |cs|
  {
    if cs != [] {
      var init := cs[..|cs| - 1];
      var c := Last(cs);
      AnalyzeAllMembers(init, analyze);
      AnalyzeAllKeys(init, analyze);
      assert forall i :: 0 <= i < |init| ==> cs[i] == init[i];
      if analyze(c.source).Failure? {
        assert |FailureLine(c.name, analyze(c.source).error)| > 0;
      }
    }
  }

  /** With distinct ids, each successfully analysed contract's analysis is
      stored under its id, carrying the contract's name. */
  lemma {:induction false} AnalyzeAllResult(cs: seq<ContractInput>, analyze: string -> Result<AnalyzedContract, string>, i: nat)
    requires NoDup(Ids(cs)) && i < |cs| && analyze(cs[i].source).Success?
    ensures var b := AnalyzeAll(cs, analyze);
      cs[i].id in b.results && b.results[cs[i].id] == analyze(cs[i].source).value.(name := cs[i].name)
    decreases |cs|
  {
    var init := cs[..|cs| - 1];
    if i < |cs| - 1 {
      assert NoDup(Ids(init)) by {
        forall p, q | 0 <= p < q < |init| ensures Ids(init)[p] != Ids(init)[q] {
          assert Ids(init)[p] == Ids(cs)[p] && Ids(init)[q] == Ids(cs)[q];
        }
      }
      assert init[i] == cs[i];
      AnalyzeAllResult(init, analyze, i);
      assert Ids(cs)[i] != Ids(cs)[|cs| - 1];
    }
  }

  /** The contracts analysed are exactly those with some text, in order,
      with distinct ids when the contracts have them. */
  lemma ToAnalyzeFacts(cs: seq<ContractInput>)
    ensures forall c :: c in ToAnalyze(cs) <==> c in cs && HasText(c)
    ensures NoDup(Ids(cs)) ==> NoDup(Ids(ToAnalyze(cs)))
  {
    FilterFacts(cs, (c: ContractInput) => HasText(c));
    if NoDup(Ids(cs)) {
      FilterIds(cs, (c: ContractInput) => HasText(c));
    }
  }

  /** The outcome lists each stored id once, stores an analysis for exactly
      the listed ids, and only ids of the contracts. */
  lemma AnalysisKeys(cs: seq<ContractInput>, selected: string, analyze: string -> Result<AnalyzedContract, string>)
    ensures var o := Analysis(cs, selected, analyze);
      && NoDup(o.ids)
      && (forall id :: id in o.results <==> id in o.ids)
      && (forall id :: id in o.ids ==> id in Ids(cs))
  {
    AnalyzeAllKeys(ToAnalyze(cs), analyze);
    AnalyzedIdsPresent(cs, analyze);
  }

  /** Every id the analysis stores is the id of one of the contracts. */
  lemma AnalyzedIdsPresent(cs: seq<ContractInput>, analyze: string -> Result<AnalyzedContract, string>)
    ensures forall k :: k in AnalyzeAll(ToAnalyze(cs), analyze).ids ==> k in Ids(cs)
  {
    var todo := ToAnalyze(cs);
    AnalyzeAllMembers(todo, analyze);
    FilterFacts(cs, (c: ContractInput) => HasText(c));
    forall k | k in AnalyzeAll(todo, analyze).ids ensures k in Ids(cs) {
      var j :| 0 <= j < |todo| && todo[j].id == k && analyze(todo[j].source).Success?;
      assert todo[j] in cs;
      var n :| 0 <= n < |cs| && cs[n] == todo[j];
      assert Ids(cs)[n] == k;
    }
  }

  /** With no contract holding text, the error asks for source code and
      nothing is stored; the view is reset exactly when something is
      stored. */
  lemma AnalysisWithoutText(cs: seq<ContractInput>, selected: string, analyze: string -> Result<AnalyzedContract, string>)
    ensures var o := Analysis(cs, selected, analyze);
      && ((forall i :: 0 <= i < |cs| ==> !HasText(cs[i])) ==>
            o.error == Some(NoContractsMessage) && o.ids == [] && !o.resetView)
      && (o.resetView <==> o.ids != [])
  {
    var todo := ToAnalyze(cs);
    ToAnalyzeFacts(cs);
    AnalyzeAllKeys(todo, analyze);
    forall j | 0 <= j < |todo| ensures todo[j] in cs && HasText(todo[j]) {
      assert todo[j] in todo;
    }
  }

  /** Each contract with text whose analysis succeeded has that analysis
      stored under its id, with its own name, and the view is reset. */
  lemma AnalysisStores(cs: seq<ContractInput>, selected: string, analyze: string -> Result<AnalyzedContract, string>, i: nat)
    requires NoDup(Ids(cs)) && i < |cs| && HasText(cs[i]) && analyze(cs[i].source).Success?
    ensures var o := Analysis(cs, selected, analyze);
      o.resetView && cs[i].id in o.results && o.results[cs[i].id] == analyze(cs[i].source).value.(name := cs[i].name)
  {
    var todo := ToAnalyze(cs);
    ToAnalyzeFacts(cs);
    AnalyzeAllKeys(todo, analyze);
    assert cs[i] in todo;
    var j :| 0 <= j < |todo| && todo[j] == cs[i];
    AnalyzeAllResult(todo, analyze, j);
  }

  /** When some contract has text but nothing is stored, every analysis
      failed and the error is the collected, non-empty, message. */
  lemma AnalysisAllFailed(cs: seq<ContractInput>, selected: string, analyze: string -> Result<AnalyzedContract, string>)
    ensures var o := Analysis(cs, selected, analyze);
      !o.resetView && (exists i :: 0 <= i < |cs| && HasText(cs[i])) ==>
        && (forall i :: 0 <= i < |cs| && HasText(cs[i]) ==> analyze(cs[i].source).Failure?)
        && o.error.Some? && o.error.value != ""
  {
    var todo := ToAnalyze(cs);
    var b := AnalyzeAll(todo, analyze);
    var o := Analysis(cs, selected, analyze);
    if !o.resetView && exists i :: 0 <= i < |cs| && HasText(cs[i]) {
      ToAnalyzeFacts(cs);
      var i0 :| 0 <= i0 < |cs| && HasText(cs[i0]);
      assert cs[i0] in todo;
      assert b.failed && b.ids == [];
      AnalyzeAllMembers(todo, analyze);
      forall i | 0 <= i < |cs| && HasText(cs[i]) ensures analyze(cs[i].source).Failure? {
        assert cs[i] in todo;
        var j :| 0 <= j < |todo| && todo[j] == cs[i];
        assert todo[j].id !in b.ids;
      }
    }
  }

  /** `ToAnalyze` grows by the last contract exactly when it has text. */
  lemma ToAnalyzeSnoc(cs: seq<ContractInput>)
    requires cs != []
    ensures ToAnalyze(cs) == ToAnalyze(cs[..|cs| - 1]) + (if HasText(Last(cs)) then [Last(cs)] else [])
  {
  }

  /** One more contract keeps the listed ids and at most appends its own,
      which it does only when it has text and its analysis succeeds. */
  lemma AnalyzeAllSnoc(cs: seq<ContractInput>, analyze: string -> Result<AnalyzedContract, string>)
    requires cs != []
    ensures var c := Last(cs);
      var ids := AnalyzeAll(ToAnalyze(cs[..|cs| - 1]), analyze).ids;
      var ids' := AnalyzeAll(ToAnalyze(cs), analyze).ids;
      && (ids' == ids || ids' == ids + [c.id])
      && (!(HasText(c) && analyze(c.source).Success?) ==> ids' == ids)
      && (ids == [] && HasText(c) && analyze(c.source).Success? ==> ids' == [c.id])
  {
    var c := Last(cs);
    var todo := ToAnalyze(cs[..|cs| - 1]);
    ToAnalyzeSnoc(cs);
    if HasText(c) {
      var t := todo + [c];
      var b := AnalyzeAll(todo, analyze);
      assert t[..|t| - 1] == todo && Last(t) == c;
      assert ToAnalyze(cs) == t;
      match analyze(c.source)
      case Success(a) =>
        AnalyzeAllKeys(todo, analyze);
        assert AnalyzeAll(t, analyze).ids == if c.id in b.results then b.ids else b.ids + [c.id];
      case Failure(m) =>
        assert AnalyzeAll(t, analyze).ids == b.ids;
    } else {
      assert ToAnalyze(cs) == todo;
    }
  }

  /** When every contract with text fails, nothing is stored. */
  lemma {:induction false} NothingAnalyzed(cs: seq<ContractInput>, analyze: string -> Result<AnalyzedContract, string>)
    requires forall p :: 0 <= p < |cs| && HasText(cs[p]) ==> analyze(cs[p].source).Failure?
    ensures AnalyzeAll(ToAnalyze(cs), analyze).ids == []
    decreases |cs|
  {
    if cs != [] {
      var init := cs[..|cs| - 1];
      forall p | 0 <= p < |init| && HasText(init[p]) ensures analyze(init[p].source).Failure? {
        assert init[p] == cs[p];
      }
      NothingAnalyzed(init, analyze);
      AnalyzeAllSnoc(cs, analyze);
    }
  }

  /** The first key of the new map is the id of the first contract with
      text whose analysis succeeds. */
  lemma {:induction false} FirstAnalyzedId(cs: seq<ContractInput>, analyze: string -> Result<AnalyzedContract, string>, i: nat)
    requires i < |cs| && HasText(cs[i]) && analyze(cs[i].source).Success?
    requires forall p :: 0 <= p < i && HasText(cs[p]) ==> analyze(cs[p].source).Failure?
    ensures var ids := AnalyzeAll(ToAnalyze(cs), analyze).ids;
      |ids| > 0 && ids[0] == cs[i].id
    decreases |cs|
  {
    var init := cs[..|cs| - 1];
    forall p | 0 <= p < |init| && p < i && HasText(init[p]) ensures analyze(init[p].source).Failure? {
      assert init[p] == cs[p];
    }
    AnalyzeAllSnoc(cs, analyze);
    if i < |cs| - 1 {
      assert init[i] == cs[i];
      FirstAnalyzedId(init, analyze, i);
    } else {
      NothingAnalyzed(init, analyze);
    }
  }

  /** After a run that stores something, there is no error exactly when
      every analysis succeeded, and the selection is an analysed id: the
      previous one whenever that was analysed, and otherwise the id of the
      first contract with text whose analysis succeeded. */
  lemma AnalysisSelection(cs: seq<ContractInput>, selected: string, analyze: string -> Result<AnalyzedContract, string>)
    ensures var o := Analysis(cs, selected, analyze);
      o.resetView ==>
        && (o.error == None <==> forall i :: 0 <= i < |cs| && HasText(cs[i]) ==> analyze(cs[i].source).Success?)
        && o.selection in o.results
        && (selected != "" && selected in o.results ==> o.selection == selected)
    ensures var o := Analysis(cs, selected, analyze);
      forall i :: 0 <= i < |cs| && HasText(cs[i]) && analyze(cs[i].source).Success? &&
                  (forall p :: 0 <= p < i && HasText(cs[p]) ==> analyze(cs[p].source).Failure?) &&
                  !(selected != "" && selected in o.results) ==>
        o.resetView && o.selection == cs[i].id
  {
    var todo := ToAnalyze(cs);
    ToAnalyzeFacts(cs);
    AnalyzeAllKeys(todo, analyze);
    AnalyzeAllMembers(todo, analyze);
    forall i | 0 <= i < |cs| && HasText(cs[i]) ensures cs[i] in todo { }
    forall j | 0 <= j < |todo| ensures todo[j] in cs && HasText(todo[j]) {
      assert todo[j] in todo;
    }
    forall i | 0 <= i < |cs| && HasText(cs[i]) && analyze(cs[i].source).Success? &&
               (forall p :: 0 <= p < i && HasText(cs[p]) ==> analyze(cs[p].source).Failure?)
      ensures |AnalyzeAll(todo, analyze).ids| > 0 && AnalyzeAll(todo, analyze).ids[0] == cs[i].id
    {
      FirstAnalyzedId(cs, analyze, i);
    }
  }

  /** `addContract` as written: the new id is `contracts.length + 1`. */
  function AddedAsWritten(cs: seq<ContractInput>): seq<ContractInput> {
    var id := NatToString(|cs| + 1);
    cs + [ContractInput(id, NamePrefix + id, "")]
  }

  /** As written, removing contract `1` of two and adding one gives two
      contracts with id `2`; removing `2` from those then leaves no
      contract, so `newContracts[0].id` fails. */
  lemma DuplicateIdAfterRemove()
    ensures var cs := [ContractInput("1", NamePrefix + "1", ""), ContractInput("2", NamePrefix + "2", "")];
      var after := AddedAsWritten(Without(cs, "1"));
      && Ids(after) == ["2", "2"]
      && !NoDup(Ids(after))
      && Without(after, "2") == []
  {
    var c1, c2 := ContractInput("1", NamePrefix + "1", ""), ContractInput("2", NamePrefix + "2", "");
    WithoutSnoc([], c1, "1");
    assert [] + [c1] == [c1];
    WithoutSnoc([c1], c2, "1");
    assert [c1] + [c2] == [c1, c2];
    assert Without([c1, c2], "1") == [c2];
    assert NatToString(2) == "2";
    var after := AddedAsWritten([c2]);
    assert after == [c2, c2];
    WithoutSnoc([], c2, "2");
    assert [] + [c2] == [c2];
    WithoutSnoc([c2], c2, "2");
    assert [c2] + [c2] == [c2, c2];
    assert Ids(after) == ["2", "2"];
    assert Ids(after)[0] == Ids(after)[1];
    assert Without(after, "2") == [];
  }

  /** Removing from a list that grew by one element. */
  lemma WithoutSnoc(cs: seq<ContractInput>, c: ContractInput, id: string)
    ensures Without(cs + [c], id) == Without(cs, id) + (if c.id != id then [c] else [])
  {
    assert (cs + [c])[..|cs|] == cs;
  }

  /** Editing a contract's text or name keeps the ids in their order; a
      later edit of the same field overrides an earlier one; text and name
      edits commute. */
  lemma EditLaws(cs: seq<ContractInput>, id: string, s1: string, s2: string, n1: string)
    ensures Ids(WithSource(cs, id, s1)) == Ids(cs) && Ids(WithName(cs, id, n1)) == Ids(cs)
    ensures WithSource(WithSource(cs, id, s1), id, s2) == WithSource(cs, id, s2)
    ensures WithName(WithName(cs, id, s1), id, s2) == WithName(cs, id, s2)
    ensures WithName(WithSource(cs, id, s1), id, n1) == WithSource(WithName(cs, id, n1), id, s1)
  {
  }

  /** Editing the text of a contract with that id changes only its text:
      every other contract and field stays as it was. */
  lemma WithSourceAt(cs: seq<ContractInput>, id: string, source: string, i: nat)
    requires i < |cs|
    ensures var r := WithSource(cs, id, source)[i];
      && r.id == cs[i].id && r.name == cs[i].name
      && r.source == (if cs[i].id == id then source else cs[i].source)
  {
  }
}
