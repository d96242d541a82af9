/** The node click handler of app/components/DynamicFlowChart.tsx: a click
    on a node whose id starts with `function-` reports
    `functions[parseInt(id.split('-')[1])]`. */
module FlowClick {
  import opened Wrappers
  import opened Text
  import opened ContractModel
  import opened FlowGraph

  /** What the handler does: nothing, or a call with the function found, or
      with `undefined` (`Call(None)`) when the index is not a position of the
      list. */
  datatype Click = NoCall | Call(f: Option<ContractFunction>)

  function ClickOn(fs: seq<ContractFunction>, id: string): Click {
    if !StartsWith(id, FunctionPrefix) then NoCall
    else
      var parts := Split(id, '-');
      var index := if |parts| >= 2 then ParseInt(parts[1]) else None;
      if index.Some? && 0 <= index.value < |fs| then Call(Some(fs[index.value])) else Call(None)
  }

  /** A click on the node `function-<i>` of the overview graph reports
      function `i`. */
  lemma ClickOnFunctionNode(fs: seq<ContractFunction>, i: nat)
    requires i < |fs|
    ensures ClickOn(fs, FunctionId(i)) == Call(Some(fs[i]))
  {
    var digits := NatToString(i);
    NatToStringFacts(i);
    assert IntToString(i) == digits;
    var id := FunctionId(i);
    assert id == "function" + ['-'] + digits;
    assert id[..|FunctionPrefix|] == FunctionPrefix;
    assert '-' !in digits by {
      forall j | 0 <= j < |digits| ensures digits[j] != '-' {
        assert IsDigit(digits[j]);
      }
    }
    SplitAroundSeparator("function", '-', digits);
    ParseNatToString(i);
  }

  /** The dangling dependency target `function--1` reports `undefined`. */
  lemma ClickOnDanglingTarget(fs: seq<ContractFunction>)
    ensures ClickOn(fs, FunctionId(-1)) == Call(None)
  {
    var one := NatToString(1);
    var rest := ['-'] + one;
    var id := FunctionId(-1);
    assert id == FunctionPrefix + rest;
    assert FunctionPrefix == "function" + ['-'];
    assert id[..|FunctionPrefix|] == FunctionPrefix;
    SplitAfterPrefix("function", '-', rest);
    assert rest == [] + ['-'] + one;
    SplitAfterPrefix([], '-', one);
    assert Split(id, '-')[1] == [];
  }
}
