/** What interface mode promises: the fixed shape of its model, the fields
    and defaults of each function entry, the role table, and the emitters of
    an event, which come only from the functions listed before it. */
module AbiProps {
  import opened Wrappers
  import opened Text
  import opened Seqs
  import opened ContractModel
  import opened Roles
  import opened AbiMode

  lemma NamesAppend(a: seq<ContractFunction>, b: seq<ContractFunction>)
    ensures Names(a + b) == Names(a) + Names(b)
  {
    assert forall i :: 0 <= i < |a| + |b| ==> Names(a + b)[i] == (Names(a) + Names(b))[i];
  }

  /** The function entries are named, in order, by the list of function
      names the dependency test draws from. */
  lemma {:induction false} AbiFunctionNames(docText: string, allNames: seq<string>, items: seq<AbiItem>)
    ensures Names(AbiFunctions(docText, allNames, items)) == FunctionNames(items)
    decreases |items|
  {
    if items != [] {
      var init := items[..|items| - 1];
      var it := items[|items| - 1];
      AbiFunctionNames(docText, allNames, init);
      var fs := AbiFunctions(docText, allNames, init);
      if IsFunctionItem(it) {
        NamesAppend(fs, [AbiFunctionOf(docText, allNames, it)]);
      } else {
        assert AbiFunctions(docText, allNames, items) == fs;
      }
    }
  }

  /** Every function entry comes from a function item of the array. */
  lemma {:induction false} AbiFunctionOrigin(docText: string, allNames: seq<string>, items: seq<AbiItem>)
    ensures forall f :: f in AbiFunctions(docText, allNames, items) ==>
      exists it :: it in items && IsFunctionItem(it) && f == AbiFunctionOf(docText, allNames, it)
    decreases |items|
  {
    if items != [] {
      var init := items[..|items| - 1];
      AbiFunctionOrigin(docText, allNames, init);
      forall f | f in AbiFunctions(docText, allNames, items)
        ensures exists it :: it in items && IsFunctionItem(it) && f == AbiFunctionOf(docText, allNames, it)
      {
        if f in AbiFunctions(docText, allNames, init) {
          var it :| it in init && IsFunctionItem(it) && f == AbiFunctionOf(docText, allNames, it);
          assert it in items;
        } else {
          assert items[|items| - 1] in items;
        }
      }
    } else {
      assert AbiFunctions(docText, allNames, items) == [];
    }
  }

  /** The fields of one function entry: the item's name, kind `function`,
      no modifiers, visibility `public` unless the item gives a non-empty
      one, no parameters where the item lists none, `payable` exactly for
      mutability `payable`, roles from the item's own text, and calls taken
      from the text of the whole array. */
  lemma AbiFunctionFields(docText: string, allNames: seq<string>, it: AbiItem)
    requires it.Entry?
    ensures var f := AbiFunctionOf(docText, allNames, it);
      && f.name == it.name.GetOr("")
      && f.kind == "function"
      && f.modifiers == []
      && (it.visibility.None? || it.visibility == Some("") ==> f.visibility == "public")
      && (it.visibility.Some? && it.visibility.value != "" ==> f.visibility == it.visibility.value)
      && (it.inputs.None? ==> f.inputs == [])
      && (it.inputs.Some? ==> |f.inputs| == |it.inputs.value|)
      && (it.outputs.None? ==> f.outputs == [])
      && (it.outputs.Some? ==> |f.outputs| == |it.outputs.value|)
      && f.stateMutability == it.stateMutability
      && (f.payable <==> it.stateMutability == Some("payable"))
      && f.roles != [] && NoDup(f.roles)
      && ("owner" in f.roles <==> OwnerRule(f.name, it.text))
      && ("admin" in f.roles <==> AdminRule(f.name, it.text))
      && (forall x :: x in f.dependencies <==> x in allNames && x != f.name && Contains(docText, x + "("))
  {
    var f := AbiFunctionOf(docText, allNames, it);
    RolesForFacts(f.name, it.text);
    DependenciesFacts(f.name, docText, allNames);
  }

  /** The role table of an interface-mode model: distinct role names, one
      entry for each role some function carries, no permissions, each entry
      listing its carriers in function order; `hasOwnership` and
      `hasAccessControl` hold exactly when there is an `owner` or an `admin`
      entry. */
  lemma AbiRoles(docText: string, allNames: seq<string>, items: seq<AbiItem>)
    ensures var fs := AbiFunctions(docText, allNames, items);
      var t := RoleTable(AllRolePairs(fs));
      && (forall j, k :: 0 <= j < k < |t| ==> t[j].name != t[k].name)
      && (forall role :: (exists k :: 0 <= k < |t| && t[k].name == role) <==> SomeHasRole(fs, role))
      && (forall k :: 0 <= k < |t| ==> t[k].permissions == [] && t[k].functions == Carriers(fs, t[k].name))
      && (SomeHasRole(fs, "owner") <==> exists k :: 0 <= k < |t| && t[k].name == "owner")
      && (SomeHasRole(fs, "admin") <==> exists k :: 0 <= k < |t| && t[k].name == "admin")
  {
    var fs := AbiFunctions(docText, allNames, items);
    AbiFunctionOrigin(docText, allNames, items);
    forall k | 0 <= k < |fs| ensures NoDup(fs[k].roles) {
      assert fs[k] in fs;
      var it :| it in items && IsFunctionItem(it) && fs[k] == AbiFunctionOf(docText, allNames, it);
      RolesForFacts(it.name.GetOr(""), it.text);
    }
    RoleTableOfFunctions(fs);
  }

  /** The fixed parts of the model, and the exceptions: `analyzeABI` fails
      exactly on a `null` entry or a nameless function entry; otherwise its
      model is named `Contract`, has version `Unknown`, no license, no state
      variables, findings, parents or modifiers, and one function entry per
      function item, named in order. */
  lemma AbiModelShape(doc: AbiDocument)
    ensures AbiModel(doc).None? <==> Throws(doc.items)
    ensures AbiModel(doc).Some? ==>
      var c := AbiModel(doc).value;
      && c.name == "Contract" && c.version == "Unknown" && c.license == None
      && c.stateVariables == [] && c.securityIssues == [] && c.inheritance == [] && c.modifiers == []
      && Names(c.functions) == FunctionNames(doc.items)
      && |c.functions| == |FunctionNames(doc.items)|
  {
    AbiFunctionNames(doc.text, FunctionNames(doc.items), doc.items);
  }

  /** `x` is listed by `NamesIn` exactly when it names one of the functions
      and occurs in the text. */
  lemma {:induction false} NamesInFacts(fs: seq<ContractFunction>, text: string)
    ensures forall x :: x in NamesIn(fs, text) <==> x in Names(fs) && Contains(text, x)
    decreases |fs|
  {
    if fs != [] {
      var init := fs[..|fs| - 1];
      var f := fs[|fs| - 1];
      NamesInFacts(init, text);
      NamesAppend(init, [f]);
      assert fs == init + [f];
      assert Names([f]) == [f.name];
      assert Names(fs) == Names(init) + [f.name];
    } else {
      assert NamesIn(fs, text) == [] && Names(fs) == [];
    }
  }

  /** The functions built before position `i` are a prefix of all of them. */
  lemma {:induction false} AbiFunctionsPrefix(docText: string, allNames: seq<string>, items: seq<AbiItem>, i: nat)
    requires i <= |items|
    ensures var fs := AbiFunctions(docText, allNames, items);
      var pre := AbiFunctions(docText, allNames, items[..i]);
      |pre| <= |fs| && fs[..|pre|] == pre
    decreases |items| - i
  {
    if i < |items| {
      var n := |items| - 1;
      assert items[..n][..i] == items[..i];
      AbiFunctionsPrefix(docText, allNames, items[..n], i);
    } else {
      assert items[..i] == items;
    }
  }

  /** The event entry built from the event item at position `i`. */
  function EventAt(docText: string, allNames: seq<string>, items: seq<AbiItem>, i: nat): ContractEvent
    requires i < |items| && IsEventItem(items[i])
  {
    AbiEventOf(items[i], AbiFunctions(docText, allNames, items[..i]))
  }

  lemma EventAtOfInit(docText: string, allNames: seq<string>, items: seq<AbiItem>, i: nat)
    requires i < |items| - 1 && IsEventItem(items[i])
    ensures EventAt(docText, allNames, items[..|items| - 1], i) == EventAt(docText, allNames, items, i)
  {
    assert items[..|items| - 1][..i] == items[..i];
  }

  /** Every event entry comes from an event item, built from the function
      entries of the items before it. */
  lemma {:induction false} AbiEventOrigin(docText: string, allNames: seq<string>, items: seq<AbiItem>)
    ensures forall e :: e in AbiEvents(docText, allNames, items) ==>
      exists i :: 0 <= i < |items| && IsEventItem(items[i]) && e == EventAt(docText, allNames, items, i)
    decreases |items|
  {
    if items != [] {
      var n := |items| - 1;
      var init := items[..n];
      AbiEventOrigin(docText, allNames, init);
      forall e | e in AbiEvents(docText, allNames, items)
        ensures exists i :: 0 <= i < |items| && IsEventItem(items[i]) && e == EventAt(docText, allNames, items, i)
      {
        if e in AbiEvents(docText, allNames, init) {
          var i :| 0 <= i < |init| && IsEventItem(init[i]) && e == EventAt(docText, allNames, init, i);
          EventAtOfInit(docText, allNames, items, i);
        } else {
          assert IsEventItem(items[n]) && e == EventAt(docText, allNames, items, n);
        }
      }
    } else {
      assert AbiEvents(docText, allNames, items) == [];
    }
  }

  /** The emitters of the event item at position `i` are the names of the
      functions listed before it that occur in its own text; each is the
      name of a function entry of the model. */
  lemma EmittersAt(docText: string, allNames: seq<string>, items: seq<AbiItem>, i: nat)
    requires i < |items| && IsEventItem(items[i])
    ensures var e := EventAt(docText, allNames, items, i);
      && e.name == items[i].name.GetOr("")
      && (forall x :: x in e.relatedFunctions <==>
            x in Names(AbiFunctions(docText, allNames, items[..i])) && Contains(items[i].text, x))
      && (forall x :: x in e.relatedFunctions ==> x in Names(AbiFunctions(docText, allNames, items)))
  {
    var pre := AbiFunctions(docText, allNames, items[..i]);
    var fs := AbiFunctions(docText, allNames, items);
    var e := EventAt(docText, allNames, items, i);
    NamesInFacts(pre, items[i].text);
    AbiFunctionsPrefix(docText, allNames, items, i);
    forall x | x in e.relatedFunctions ensures x in Names(fs) {
      var j :| 0 <= j < |pre| && Names(pre)[j] == x;
      assert fs[j] == pre[j];
      assert Names(fs)[j] == x;
    }
  }

  /** Each event entry of the model comes from an event item, whose
      emitters are functions listed before it (`EmittersAt`). */
  lemma AbiEmitters(doc: AbiDocument, k: nat)
    requires AbiModel(doc).Some? && k < |AbiModel(doc).value.events|
    ensures var c := AbiModel(doc).value;
      exists i :: 0 <= i < |doc.items| && IsEventItem(doc.items[i])
        && c.events[k] == EventAt(doc.text, FunctionNames(doc.items), doc.items, i)
        && (forall x :: x in c.events[k].relatedFunctions ==> x in Names(c.functions))
  {
    var c := AbiModel(doc).value;
    var allNames := FunctionNames(doc.items);
    AbiEventOrigin(doc.text, allNames, doc.items);
    assert c.events[k] in AbiEvents(doc.text, allNames, doc.items);
    var i :| 0 <= i < |doc.items| && IsEventItem(doc.items[i]) && c.events[k] == EventAt(doc.text, allNames, doc.items, i);
    EmittersAt(doc.text, allNames, doc.items, i);
  }
}
