/** Role assignment, call detection and the role table of the analyser
    (`determineRole`, `analyzeFunctionDependencies` and the
    `functionRoles.forEach` accumulation in app/lib/contractAnalyzer.ts). */
module Roles {
  import opened Text
  import opened Seqs
  import opened Wrappers
  import opened ContractModel

  /** The owner rule: an `onlyOwner` guard in the scope text, or "owner" in
      the lower-cased function name. */
  predicate OwnerRule(funcName: string, scope: string) {
    Contains(scope, "onlyOwner") || Contains(ToLower(funcName), "owner")
  }

  predicate AdminRule(funcName: string, scope: string) {
    Contains(scope, "onlyAdmin") || Contains(ToLower(funcName), "admin")
  }

  predicate UserRule(funcName: string, scope: string) {
    Contains(ToLower(funcName), "user") || Contains(scope, "view") || Contains(scope, "pure")
  }

  /** Position of a role in the order the rules are tried. */
  function Rank(role: string): nat {
    if role == "owner" then 0 else if role == "admin" then 1 else 2
  }

  /** The roles `determineRole(funcName, scope)` returns. */
  function RolesFor(funcName: string, scope: string): seq<string> {
    var found :=
      (if OwnerRule(funcName, scope) then ["owner"] else [])
      + (if AdminRule(funcName, scope) then ["admin"] else [])
      + (if UserRule(funcName, scope) then ["user"] else []);
    if found != [] then found else ["user"]
  }

  /** The roles form a non-empty list without repetitions, in the order
      owner, admin, user; each role is present exactly when its rule fires,
      and `user` alone is the fallback. */
  lemma RolesForFacts(funcName: string, scope: string)
    ensures var r := RolesFor(funcName, scope);
      && r != [] && NoDup(r)
      && (forall i :: 0 <= i < |r| ==> r[i] == "owner" || r[i] == "admin" || r[i] == "user")
      && (forall i, j :: 0 <= i < j < |r| ==> Rank(r[i]) < Rank(r[j]))
      && ("owner" in r <==> OwnerRule(funcName, scope))
      && ("admin" in r <==> AdminRule(funcName, scope))
      && ("user" in r <==> UserRule(funcName, scope) || (!OwnerRule(funcName, scope) && !AdminRule(funcName, scope)))
      && (!OwnerRule(funcName, scope) && !AdminRule(funcName, scope) && !UserRule(funcName, scope) ==> r == ["user"])
  {
    var o, a, u := OwnerRule(funcName, scope), AdminRule(funcName, scope), UserRule(funcName, scope);
    var r := RolesFor(funcName, scope);
    if o && a && u {
      assert r == ["owner", "admin", "user"];
    } else if o && a {
      assert r == ["owner", "admin"];
    } else if o && u {
      assert r == ["owner", "user"];
    } else if a && u {
      assert r == ["admin", "user"];
    } else if o {
      assert r == ["owner"];
    } else if a {
      assert r == ["admin"];
    } else {
      assert r == ["user"];
    }
  }

  /** `determineRole`, pushing one role per rule that fires. */
  method DetermineRole(funcName: string, source: string) returns (roles: seq<string>)
    ensures roles == RolesFor(funcName, source)
  {
    roles := [];
    if Contains(source, "onlyOwner") || Contains(ToLower(funcName), "owner") {
      roles := roles + ["owner"];
    }
    if Contains(source, "onlyAdmin") || Contains(ToLower(funcName), "admin") {
      roles := roles + ["admin"];
    }
    if Contains(ToLower(funcName), "user") || Contains(source, "view") || Contains(source, "pure") {
      roles := roles + ["user"];
    }
    if |roles| == 0 {
      roles := ["user"];
    }
  }

  /** The `flowType` of a function: owner before admin, then `view`
      functions count as system functions, the rest as user functions. */
  function FlowTypeFor(roles: seq<string>, mutability: Option<string>): FlowType {
    if "owner" in roles then OwnerFlow
    else if "admin" in roles then AdminFlow
    else if mutability == Some("view") then SystemFlow
    else UserFlow
  }

  lemma FlowTypeFacts(roles: seq<string>, mutability: Option<string>)
    ensures var t := FlowTypeFor(roles, mutability);
      && (t == OwnerFlow <==> "owner" in roles)
      && (t == AdminFlow <==> "owner" !in roles && "admin" in roles)
      && (t == SystemFlow <==> "owner" !in roles && "admin" !in roles && mutability == Some("view"))
      && (t == UserFlow <==> "owner" !in roles && "admin" !in roles && mutability != Some("view"))
  {
  }

  /** `other` counts as called from a function named `funcName` whose scope
      text is `scope`. */
  predicate IsCall(funcName: string, scope: string, other: string) {
    other != funcName && Contains(scope, other + "(")
  }

  /** What `analyzeFunctionDependencies(funcName, scope, allFunctions)`
      returns: the names of `allFunctions`, in their order and with their
      repetitions, that pass `IsCall`. */
  function Dependencies(funcName: string, scope: string, allFunctions: seq<string>): seq<string>
    decreases |allFunctions|
  {
    if allFunctions == [] then []
    else
      var n := |allFunctions| - 1;
      Dependencies(funcName, scope, allFunctions[..n])
        + (if IsCall(funcName, scope, allFunctions[n]) then [allFunctions[n]] else [])
  }

  /** The dependencies are the names of `allFunctions` that pass `IsCall`,
      and no more of them than there are names. */
  lemma {:induction false} DependenciesFacts(funcName: string, scope: string, allFunctions: seq<string>)
    ensures |Dependencies(funcName, scope, allFunctions)| <= |allFunctions|
    ensures forall x :: x in Dependencies(funcName, scope, allFunctions) <==>
      x in allFunctions && IsCall(funcName, scope, x)
    decreases |allFunctions|
  {
    if allFunctions != [] {
      var n := |allFunctions| - 1;
      DependenciesFacts(funcName, scope, allFunctions[..n]);
      assert allFunctions == allFunctions[..n] + [allFunctions[n]];
    }
  }

  /** `analyzeFunctionDependencies`, one `push` per called name. */
  method AnalyzeFunctionDependencies(funcName: string, source: string, allFunctions: seq<string>)
    returns (dependencies: seq<string>)
    ensures dependencies == Dependencies(funcName, source, allFunctions)
  {
    dependencies := [];
    var i := 0;
    while i < |allFunctions|
      invariant 0 <= i <= |allFunctions|
      invariant dependencies == Dependencies(funcName, source, allFunctions[..i])
    {
      var otherFunc := allFunctions[i];
      if otherFunc != funcName && Contains(source, otherFunc + "(") {
        dependencies := dependencies + [otherFunc];
      }
      assert allFunctions[..i + 1][..i] == allFunctions[..i];
      i := i + 1;
    }
    assert allFunctions[..i] == allFunctions;
  }

  // ---------------------------------------------------------------------
  // The role table

  /** One (function name, role) pair per role a function carries. */
  function RolePairs(name: string, roles: seq<string>): seq<(string, string)> {
    seq(|roles|, j requires 0 <= j < |roles| => (name, roles[j]))
  }

  /** The pairs of all functions, function by function. */
  function AllRolePairs(fs: seq<ContractFunction>): seq<(string, string)>
    decreases |fs|
  {
    if fs == [] then []
    else AllRolePairs(fs[..|fs| - 1]) + RolePairs(fs[|fs| - 1].name, fs[|fs| - 1].roles)
  }

  function RolesOf(ps: seq<(string, string)>): seq<string> {
    seq(|ps|, i requires 0 <= i < |ps| => ps[i].1)
  }

  /** The function names paired with `role`, in order. */
  function Holders(ps: seq<(string, string)>, role: string): seq<string>
    decreases |ps|
  {
    if ps == [] then []
    else Holders(ps[..|ps| - 1], role) + (if ps[|ps| - 1].1 == role then [ps[|ps| - 1].0] else [])
  }

  /** The role table the analyser builds from the pairs `ps`: one entry per
      distinct role in first-seen order, with no permissions, listing the
      function names that carry the role. */
  function RoleTable(ps: seq<(string, string)>): seq<RoleDefinition> {
    var names := FirstSeen(RolesOf(ps));
    seq(|names|, k requires 0 <= k < |names| => RoleDefinition(names[k], [], Holders(ps, names[k])))
  }

  /** `roles.find(r => r.name === role)`, as a position (-1 when absent). */
  function RoleIndex(table: seq<RoleDefinition>, role: string): (k: int)
    ensures -1 <= k < |table|
    ensures 0 <= k ==> table[k].name == role
    ensures k == -1 <==> forall j :: 0 <= j < |table| ==> table[j].name != role
    decreases |table|
  {
    if table == [] then -1
    else if table[0].name == role then 0
    else
      var k := RoleIndex(table[1..], role);
      if k == -1 then -1 else k + 1
  }

  /** One step of the accumulation: append the name to the existing entry
      for the role, or add a new entry for it. */
  function AddRole(table: seq<RoleDefinition>, name: string, role: string): seq<RoleDefinition> {
    var k := RoleIndex(table, role);
    if k == -1 then table + [RoleDefinition(role, [], [name])]
    else table[k := table[k].(functions := table[k].functions + [name])]
  }

  lemma {:induction false} HoldersOfAbsentRole(ps: seq<(string, string)>, role: string)
    requires role !in RolesOf(ps)
    ensures Holders(ps, role) == []
    decreases |ps|
  {
    if ps != [] {
      assert RolesOf(ps[..|ps| - 1]) == RolesOf(ps)[..|ps| - 1];
      HoldersOfAbsentRole(ps[..|ps| - 1], role);
      assert ps[|ps| - 1].1 == RolesOf(ps)[|ps| - 1];
    }
  }

  /** Accumulating one more pair is the table of the longer pair list. */
  lemma RoleTableStep(ps: seq<(string, string)>, name: string, role: string)
    ensures RoleTable(ps + [(name, role)]) == AddRole(RoleTable(ps), name, role)
  {
    var ps' := ps + [(name, role)];
    assert ps'[..|ps'| - 1] == ps;
    assert RolesOf(ps') == RolesOf(ps) + [role];
    assert RolesOf(ps')[..|ps'| - 1] == RolesOf(ps);
    var names := FirstSeen(RolesOf(ps));
    var names' := FirstSeen(RolesOf(ps'));
    FirstSeenFacts(RolesOf(ps));
    var old_ := RoleTable(ps);
    var new_ := RoleTable(ps');
    assert forall x :: Holders(ps', x) == Holders(ps, x) + (if x == role then [name] else []);
    var k := RoleIndex(old_, role);
    if k == -1 {
      assert forall j :: 0 <= j < |names| ==> old_[j].name == names[j];
      assert role !in names;
      HoldersOfAbsentRole(ps, role);
      assert names' == names + [role];
      forall j | 0 <= j < |names'| ensures new_[j] == (old_ + [RoleDefinition(role, [], [name])])[j] {
        if j < |names| {
          assert names[j] != role;
        }
      }
    } else {
      assert names[k] == role;
      assert role in names;
      assert names' == names;
      forall j | 0 <= j < |names| ensures new_[j] == AddRole(old_, name, role)[j] {
        if j != k {
          assert names[j] != role;
        }
      }
    }
  }

  /** `roles.find(r => r.name === role)`, as a position. */
  method FindRole(table: seq<RoleDefinition>, role: string) returns (k: int)
    ensures k == RoleIndex(table, role)
  {
    k := 0;
    while k < |table| && table[k].name != role
      invariant 0 <= k <= |table|
      invariant forall j :: 0 <= j < k ==> table[j].name != role
    {
      k := k + 1;
    }
    if k == |table| {
      k := -1;
    } else {
      FirstRoleIndex(table, role, k);
    }
  }

  lemma {:induction false} FirstRoleIndex(table: seq<RoleDefinition>, role: string, k: nat)
    requires k < |table| && table[k].name == role
    requires forall j :: 0 <= j < k ==> table[j].name != role
    ensures RoleIndex(table, role) == k
    decreases k
  {
    if k > 0 {
      FirstRoleIndex(table[1..], role, k - 1);
    }
  }

  /** `functionRoles.forEach(role => ...)`: adds every role of one function
      to the table, in order. */
  method AddFunctionRoles(ghost ps: seq<(string, string)>, table: seq<RoleDefinition>, name: string, roles: seq<string>)
    returns (table': seq<RoleDefinition>)
    requires table == RoleTable(ps)
    ensures table' == RoleTable(ps + RolePairs(name, roles))
  {
    table' := table;
    var j := 0;
    assert ps + RolePairs(name, roles[..0]) == ps;
    while j < |roles|
      invariant 0 <= j <= |roles|
      invariant table' == RoleTable(ps + RolePairs(name, roles[..j]))
    {
      var role := roles[j];
      var k := FindRole(table', role);
      RoleTableStep(ps + RolePairs(name, roles[..j]), name, role);
      if k == -1 {
        table' := table' + [RoleDefinition(role, [], [name])];
      } else {
        table' := table'[k := table'[k].(functions := table'[k].functions + [name])];
      }
      assert RolePairs(name, roles[..j + 1]) == RolePairs(name, roles[..j]) + [(name, role)];
      assert ps + RolePairs(name, roles[..j + 1]) == ps + RolePairs(name, roles[..j]) + [(name, role)];
      j := j + 1;
    }
    assert roles[..j] == roles;
  }

  /** `functions.some(f => f.roles.includes(role))`. */
  method AnyHasRole(fs: seq<ContractFunction>, role: string) returns (b: bool)
    ensures b <==> SomeHasRole(fs, role)
  {
    b := false;
    var i := 0;
    while i < |fs| && !b
      invariant 0 <= i <= |fs|
      invariant b ==> SomeHasRole(fs, role)
      invariant !b ==> forall j :: 0 <= j < i ==> role !in fs[j].roles
    {
      b := role in fs[i].roles;
      i := i + 1;
    }
  }

  // ---------------------------------------------------------------------
  // What the role table holds, stated over the functions

  /** The names of the functions that carry `role`, in function order. */
  function Carriers(fs: seq<ContractFunction>, role: string): seq<string>
    decreases |fs|
  {
    if fs == [] then []
    else Carriers(fs[..|fs| - 1], role) + (if role in fs[|fs| - 1].roles then [fs[|fs| - 1].name] else [])
  }

  lemma {:induction false} HoldersAppend(a: seq<(string, string)>, b: seq<(string, string)>, role: string)
    ensures Holders(a + b, role) == Holders(a, role) + Holders(b, role)
    decreases |b|
  {
    if b != [] {
      var ab := a + b;
      assert ab[..|ab| - 1] == a + b[..|b| - 1];
      assert ab[|ab| - 1] == b[|b| - 1];
      HoldersAppend(a, b[..|b| - 1], role);
    } else {
      assert a + b == a;
    }
  }

  lemma {:induction false} HoldersOfOneFunction(name: string, roles: seq<string>, role: string)
    requires NoDup(roles)
    ensures Holders(RolePairs(name, roles), role) == if role in roles then [name] else []
    decreases |roles|
  {
    if roles != [] {
      var n := |roles| - 1;
      assert RolePairs(name, roles)[..n] == RolePairs(name, roles[..n]);
      HoldersOfOneFunction(name, roles[..n], role);
      assert roles == roles[..n] + [roles[n]];
      assert roles[n] == role ==> role !in roles[..n];
    }
  }

  /** No function carries a role twice, as `determineRole` guarantees. */
  predicate DistinctRoles(fs: seq<ContractFunction>) {
    forall i :: 0 <= i < |fs| ==> NoDup(fs[i].roles)
  }

  lemma {:induction false} HoldersAreCarriers(fs: seq<ContractFunction>, role: string)
    requires DistinctRoles(fs)
    ensures Holders(AllRolePairs(fs), role) == Carriers(fs, role)
    decreases |fs|
  {
    if fs != [] {
      var n := |fs| - 1;
      HoldersAreCarriers(fs[..n], role);
      HoldersAppend(AllRolePairs(fs[..n]), RolePairs(fs[n].name, fs[n].roles), role);
      HoldersOfOneFunction(fs[n].name, fs[n].roles, role);
    }
  }

  lemma {:induction false} RolesOfAllPairs(fs: seq<ContractFunction>, role: string)
    ensures role in RolesOf(AllRolePairs(fs)) <==> SomeHasRole(fs, role)
    decreases |fs|
  {
    if fs != [] {
      var n := |fs| - 1;
      var a := AllRolePairs(fs[..n]);
      var b := RolePairs(fs[n].name, fs[n].roles);
      RolesOfAllPairs(fs[..n], role);
      assert RolesOf(a + b) == RolesOf(a) + fs[n].roles;
      if SomeHasRole(fs[..n], role) {
        var i :| 0 <= i < n && role in fs[..n][i].roles;
        assert role in fs[i].roles;
      }
      if SomeHasRole(fs, role) && role !in fs[n].roles {
        var i :| 0 <= i < |fs| && role in fs[i].roles;
        assert role in fs[..n][i].roles;
      }
    }
  }

  /** The role table built from the functions' roles: distinct role names,
      a role is listed exactly when some function carries it, permissions
      are always empty, and each role lists the functions carrying it in
      function order. */
  lemma RoleTableOfFunctions(fs: seq<ContractFunction>)
    requires DistinctRoles(fs)
    ensures var t := RoleTable(AllRolePairs(fs));
      && (forall j, k :: 0 <= j < k < |t| ==> t[j].name != t[k].name)
      && (forall role :: (exists k :: 0 <= k < |t| && t[k].name == role) <==> SomeHasRole(fs, role))
      && (forall k :: 0 <= k < |t| ==> t[k].permissions == [] && t[k].functions == Carriers(fs, t[k].name))
  {
    var ps := AllRolePairs(fs);
    var t := RoleTable(ps);
    var names := FirstSeen(RolesOf(ps));
    FirstSeenFacts(RolesOf(ps));
    forall role ensures (exists k :: 0 <= k < |t| && t[k].name == role) <==> SomeHasRole(fs, role) {
      RolesOfAllPairs(fs, role);
      if role in names {
        var k :| 0 <= k < |names| && names[k] == role;
        assert t[k].name == role;
      }
    }
    forall k | 0 <= k < |t| ensures t[k].functions == Carriers(fs, t[k].name) {
      HoldersAreCarriers(fs, t[k].name);
    }
  }

  /** `hasOwnership` and `hasAccessControl` agree with the role table: a
      function carries the role exactly when the table has an entry for it. */
  lemma RoleFlagsMatchTable(fs: seq<ContractFunction>, role: string)
    requires DistinctRoles(fs)
    ensures var t := RoleTable(AllRolePairs(fs));
      SomeHasRole(fs, role) <==> exists k :: 0 <= k < |t| && t[k].name == role
  {
    RoleTableOfFunctions(fs);
  }
}
