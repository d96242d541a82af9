/** What the source-mode model promises about the analysed contract as a
    whole: the role table and the two flags, the whole-text cross
    references, the order of the findings, and the model of a text in which
    no pattern matches. */
module SourceProps {
  import opened Wrappers
  import opened Text
  import opened Seqs
  import opened ContractModel
  import opened Roles
  import opened SourceMode

  /** Every function entry carries a list of roles without repetitions. */
  lemma FunctionRolesDistinct(source: string, allNames: seq<string>, ms: seq<FunctionMatch>)
    ensures DistinctRoles(FunctionsOf(source, allNames, ms))
  {
    var fs := FunctionsOf(source, allNames, ms);
    FunctionsOfLength(source, allNames, ms);
    forall i | 0 <= i < |fs| ensures NoDup(fs[i].roles) {
      FunctionsOfAt(source, allNames, ms, i);
      RolesForFacts(ms[i].name, Slice(source, ms[i].index));
    }
  }

  /** The role table of a source-mode model (`roles` of `SourceModel`):
      distinct role names, one entry for each role some function carries,
      no permissions, each entry listing the carriers in function order; the
      `hasOwnership` and `hasAccessControl` tests hold exactly when the
      table has an `owner` or an `admin` entry. */
  lemma SourceRoles(source: string, allNames: seq<string>, ms: seq<FunctionMatch>)
    ensures var fs := FunctionsOf(source, allNames, ms);
      var t := RoleTable(AllRolePairs(fs));
      && (forall j, k :: 0 <= j < k < |t| ==> t[j].name != t[k].name)
      && (forall role :: (exists k :: 0 <= k < |t| && t[k].name == role) <==> SomeHasRole(fs, role))
      && (forall k :: 0 <= k < |t| ==> t[k].permissions == [] && t[k].functions == Carriers(fs, t[k].name))
      && (SomeHasRole(fs, "owner") <==> exists k :: 0 <= k < |t| && t[k].name == "owner")
      && (SomeHasRole(fs, "admin") <==> exists k :: 0 <= k < |t| && t[k].name == "admin")
  {
    var fs := FunctionsOf(source, allNames, ms);
    FunctionRolesDistinct(source, allNames, ms);
    RoleTableOfFunctions(fs);
    RoleFlagsMatchTable(fs, "owner");
    RoleFlagsMatchTable(fs, "admin");
  }

  /** The emitters of an event are all function names, in order, when the
      text contains `emit <name>` anywhere, and none otherwise. */
  lemma SourceEmitters(input: SourceInput, k: nat)
    requires k < |input.eventMatches|
    ensures var c := SourceModel(input);
      var e := input.eventMatches[k];
      && |c.events| == |input.eventMatches|
      && c.events[k].name == e.name
      && c.events[k].relatedFunctions == if Contains(input.source, "emit " + e.name) then Names(c.functions) else []
  {
    var c := SourceModel(input);
    var e := input.eventMatches[k];
    EventsOfAt(input.source, c.functions, input.eventMatches, k);
    NamesWhenAllOrNothing(c.functions, Contains(input.source, "emit " + e.name));
  }

  /** The readers and writers of a state variable are all function names or
      none, decided by whole-text tests; every writer is a reader. */
  lemma SourceReadersWriters(input: SourceInput, k: nat)
    requires k < |input.stateVarMatches|
    ensures var c := SourceModel(input);
      var v := input.stateVarMatches[k];
      && |c.stateVariables| == |input.stateVarMatches|
      && c.stateVariables[k].name == v.name
      && c.stateVariables[k].accessedBy == (if Contains(input.source, v.name) then Names(c.functions) else [])
      && c.stateVariables[k].modifiedBy == (if Contains(input.source, v.name + " =") then Names(c.functions) else [])
      && (forall x :: x in c.stateVariables[k].modifiedBy ==> x in c.stateVariables[k].accessedBy)
  {
    var c := SourceModel(input);
    var v := input.stateVarMatches[k];
    StatesOfAt(input.source, c.functions, input.stateVarMatches, k);
    NamesWhenAllOrNothing(c.functions, Contains(input.source, v.name));
    NamesWhenAllOrNothing(c.functions, Contains(input.source, v.name + " ="));
    if Contains(input.source, v.name + " =") {
      ContainsOfPrefix(input.source, v.name, " =");
    }
  }

  /** The findings of a source-mode model (`securityIssues` of
      `SourceModel`): first one Medium finding per payable function (each
      naming a payable function, and every payable function named), then
      the High self-destruct finding when the text mentions `selfdestruct`
      or `suicide`, then the High `tx.origin` finding when it mentions
      `tx.origin`; the affected list of each High finding is all function
      names. */
  lemma SourceFindings(source: string, fs: seq<ContractFunction>)
    ensures var issues := PayableIssues(fs) + ContractFindings(source, fs);
      var n := |PayableIssues(fs)|;
      var high := issues[n..];
      && (forall k :: 0 <= k < n ==>
            (issues[k].severity == Medium &&
             exists i :: 0 <= i < |fs| && fs[i].payable && issues[k] == PayableIssue(fs[i].name)))
      && (forall i :: 0 <= i < |fs| && fs[i].payable ==> PayableIssue(fs[i].name) in issues[..n])
      && (forall k :: 0 <= k < |high| ==>
            high[k].severity == High && high[k].location == "Contract" && high[k].affectedFunctions == Names(fs))
      && |high| == (if UsesSelfdestruct(source) then 1 else 0) + (if Contains(source, "tx.origin") then 1 else 0)
      && (UsesSelfdestruct(source) ==> high[0].description == SelfdestructText)
      && (Contains(source, "tx.origin") ==> high[|high| - 1].description == TxOriginText)
  {
    var p := PayableIssues(fs);
    var h := ContractFindings(source, fs);
    var issues := p + h;
    assert issues[..|p|] == p;
    assert issues[|p|..] == h;
    PayableIssuesOfPayables(fs);
    forall k | 0 <= k < |p|
      ensures issues[k].severity == Medium &&
        exists i :: 0 <= i < |fs| && fs[i].payable && issues[k] == PayableIssue(fs[i].name)
    {
      assert issues[k] == p[k];
      assert p[k] in p;
    }
    NamesWhenAllOrNothing(fs, UsesSelfdestruct(source));
    NamesWhenAllOrNothing(fs, Contains(source, "tx.origin"));
  }

  /** A text in which no pattern matches (the empty text, for one) gives the
      empty model rather than an error. */
  lemma EmptySourceGivesEmptyModel(source: string)
    requires !UsesSelfdestruct(source) && !Contains(source, "tx.origin")
    ensures SourceModel(SourceInput(source, None, None, None, [], [], [], [], [])) ==
      AnalyzedContract("Contract", [], [], [], [], "Unknown", None, [], [], [], false, false)
  {
    var c := SourceModel(SourceInput(source, None, None, None, [], [], [], [], []));
    assert c.functions == [];
    assert AllRolePairs([]) == [];
    assert FirstSeen(RolesOf([])) == [];
    assert c.roles == [];
  }
}
