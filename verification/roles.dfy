/**
 * Role synthesis (index.js:138-198): every function of the service gets an
 * execution role holding its policies, stored in the template under a key
 * derived from the function's logical id and referenced from the function.
 */
module Roles {
  import opened Wrappers
  import opened Json
  import opened Policies
  import opened Diagnostics
  import opened Streams
  import Seqs

  /** The service principal that assumes a function's execution role. */
  const LambdaPrincipal: string := "lambda.amazonaws.com"

  /** The fixed trust document letting Lambda assume the role (index.js:142-151). */
  const TrustPolicy: Value := Obj(map[
    "Version" := Str(PolicyVersion),
    "Statement" := Arr([Obj(map[
      "Effect" := Str("Allow"),
      "Principal" := Obj(map["Service" := StrArr([LambdaPrincipal])]),
      "Action" := Str("sts:AssumeRole")
    ])])
  ])

  // Readers for a role resource `{Type, Properties: {AssumeRolePolicyDocument, Policies}}`.

  function RoleProperties(role: Value): Value
  {
    Get(role, "Properties")
  }

  function RolePolicies(role: Value): Value
  {
    Get(RoleProperties(role), "Policies")
  }

  /**
   * Whether a trust document lets the Lambda service, and no other principal,
   * assume the role: one unconditional statement whose principal is the
   * Lambda service alone.
   */
  predicate TrustsLambda(document: Value)
  {
    var statements := Get(document, "Statement");
    && document.Obj? && document.fields.Keys == {"Version", "Statement"}
    && Get(document, "Version") == Str(PolicyVersion)
    && statements.Arr? && |statements.items| == 1
    && statements.items[0].Obj? && statements.items[0].fields.Keys == {"Effect", "Principal", "Action"}
    && Get(statements.items[0], "Effect") == Str("Allow")
    && Get(statements.items[0], "Principal") == Obj(map["Service" := StrArr([LambdaPrincipal])])
    && Get(statements.items[0], "Action") == Str("sts:AssumeRole")
  }

  /** Whether `role` is an IAM role resource that only Lambda may assume, with nothing beside its properties. */
  predicate IsLambdaRole(role: Value)
  {
    && role.Obj? && role.fields.Keys == {"Type", "Properties"}
    && Get(role, "Type") == Str("AWS::IAM::Role")
    && TrustsLambda(Get(RoleProperties(role), "AssumeRolePolicyDocument"))
  }

  /**
   * The role resource holding `policies` inline (index.js:138-155): an IAM
   * role Lambda may assume, with the policies in the given order and no
   * other property (no managed policies, no permissions boundary).
   */
  function Role(policies: seq<Value>): (r: Value)
    ensures IsLambdaRole(r)
    ensures RolePolicies(r) == Arr(policies)
    ensures RoleProperties(r).Obj? && RoleProperties(r).fields.Keys == {"AssumeRolePolicyDocument", "Policies"}
  {
    Obj(map[
      "Type" := Str("AWS::IAM::Role"),
      "Properties" := Obj(map["AssumeRolePolicyDocument" := TrustPolicy, "Policies" := Arr(policies)])
    ])
  }

  /** A trust document that lets only Lambda assume the role is the fixed one, key for key. */
  lemma TrustIsFixed(document: Value)
    requires TrustsLambda(document)
    ensures document == TrustPolicy
  {
    var statement := Get(document, "Statement").items[0];
    var fixed := TrustPolicy.fields["Statement"].items[0];
    assert statement.fields.Keys == fixed.fields.Keys;
    assert statement == fixed;
    assert Get(document, "Statement") == TrustPolicy.fields["Statement"];
    assert document.fields.Keys == TrustPolicy.fields.Keys;
  }

  /** The template key of a function's role: its logical id followed by "Role" (index.js:157-160). */
  function RoleId(logicalId: string -> string, functionName: string): (id: string)
    ensures |id| == |logicalId(functionName)| + 4
    ensures id[..|logicalId(functionName)|] == logicalId(functionName)
    ensures id[|logicalId(functionName)|..] == "Role"
  {
    logicalId(functionName) + "Role"
  }

  /** Two functions share a role key exactly when they share a logical id. */
  lemma RoleIdInjective(logicalId: string -> string, f: string, g: string)
    ensures RoleId(logicalId, f) == RoleId(logicalId, g) <==> logicalId(f) == logicalId(g)
  {
    if RoleId(logicalId, f) == RoleId(logicalId, g) {
      assert |logicalId(f)| == |logicalId(g)|;
      assert logicalId(f) == RoleId(logicalId, f)[..|logicalId(f)|];
    }
  }

  /** Whether a function object carries the display name the host fills in. */
  predicate DisplayNamed(functionObj: map<string, Value>)
  {
    "name" in functionObj && functionObj["name"].Str?
  }

  /** The function's deployed name, which its log group is named after. */
  function DisplayName(functionObj: map<string, Value>): string
    requires DisplayNamed(functionObj)
  {
    functionObj["name"].s
  }

  /** The names of the policies in a list, in order. */
  function PolicyNames(policies: seq<Value>): seq<Value>
    decreases |policies|
  {
    if policies == [] then [] else [PolicyName(policies[0])] + PolicyNames(policies[1..])
  }

  /** `[Str(name)]` when the policy is present, nothing otherwise. */
  function NameIfPresent(p: Option<Value>, name: string): seq<Value>
  {
    if p.Some? then [Str(name)] else []
  }

  lemma {:induction false} PolicyNamesAppend(a: seq<Value>, b: seq<Value>)
    ensures PolicyNames(a + b) == PolicyNames(a) + PolicyNames(b)
    decreases |a|
  {
    if a == [] {
      assert a + b == b;
    } else {
      PolicyNamesAppend(a[1..], b);
      assert (a + b)[1..] == a[1..] + b;
    }
  }

  /** The names of a role's policies in order, each present policy carrying its own name. */
  lemma PolicyOrder(logging: Value, shared: Option<Value>, custom: Option<Value>, streams: Option<Value>)
    requires PolicyName(logging) == Str("logging")
    requires shared.Some? ==> PolicyName(shared.value) == Str("shared")
    requires custom.Some? ==> PolicyName(custom.value) == Str("custom")
    requires streams.Some? ==> PolicyName(streams.value) == Str("streams")
    ensures PolicyNames([logging] + Present(shared) + Present(custom) + Present(streams))
      == [Str("logging")] + NameIfPresent(shared, "shared") + NameIfPresent(custom, "custom")
         + NameIfPresent(streams, "streams")
  {
    PolicyNamesAppend([logging] + Present(shared) + Present(custom), Present(streams));
    PolicyNamesAppend([logging] + Present(shared), Present(custom));
    PolicyNamesAppend([logging], Present(shared));
    assert [logging][1..] == [];
    if shared.Some? { assert [shared.value][1..] == []; }
    if custom.Some? { assert [custom.value][1..] == []; }
    if streams.Some? { assert [streams.value][1..] == []; }
  }

  /**
   * The role of one function with the warnings logged while building it
   * (index.js:175-193): it throws exactly when its streams policy throws, and
   * otherwise holds the logging policy of its display name, then the shared
   * policy, then its "custom" policy, then its "streams" policy, each of the
   * last three only when present. RolePolicyOrder reads off the names.
   */
  function FunctionRole(functionName: string, functionObj: map<string, Value>, shared: Option<Value>)
    : (r: Result<(Value, seq<Warning>), Error>)
    requires DisplayNamed(functionObj)
    requires shared.Some? ==> PolicyName(shared.value) == Str("shared")
    ensures r.Success? <==> StreamsPolicy(functionName, functionObj).Success?
    ensures r.Success? ==>
      var custom := PolicyFromStatements("custom", Lookup(functionObj, "iamRoleStatements"));
      var streams := StreamsPolicy(functionName, functionObj).value;
      && IsLambdaRole(r.value.0)
      && r.value.1 == streams.1
      && RolePolicies(r.value.0) == Arr(
           [LoggingPolicy(DisplayName(functionObj)).value] + Present(shared) + Present(custom) + Present(streams.0))
  {
    var logging := LoggingPolicy(DisplayName(functionObj)).value;
    var custom := PolicyFromStatements("custom", Lookup(functionObj, "iamRoleStatements"));
    match StreamsPolicy(functionName, functionObj)
    case Failure(e) => Failure(e)
    case Success((streams, warnings)) =>
      Success((Role([logging] + Present(shared) + Present(custom) + Present(streams)), warnings))
  }

  /**
   * A function's role names its policies "logging", then "shared", "custom"
   * and "streams" for those present, in that order.
   */
  lemma RolePolicyOrder(functionName: string, functionObj: map<string, Value>, shared: Option<Value>)
    requires DisplayNamed(functionObj)
    requires shared.Some? ==> PolicyName(shared.value) == Str("shared")
    requires FunctionRole(functionName, functionObj, shared).Success?
    ensures var custom := PolicyFromStatements("custom", Lookup(functionObj, "iamRoleStatements"));
      var streams := StreamsPolicy(functionName, functionObj).value;
      && RolePolicies(FunctionRole(functionName, functionObj, shared).value.0).Arr?
      && PolicyNames(RolePolicies(FunctionRole(functionName, functionObj, shared).value.0).items)
           == [Str("logging")] + NameIfPresent(shared, "shared") + NameIfPresent(custom, "custom")
              + NameIfPresent(streams.0, "streams")
  {
    var custom := PolicyFromStatements("custom", Lookup(functionObj, "iamRoleStatements"));
    var streams := StreamsPolicy(functionName, functionObj).value;
    PolicyOrder(LoggingPolicy(DisplayName(functionObj)).value, shared, custom, streams.0);
  }

  // The template's resource section, `service.resources.Resources`.

  /** Whether the template has a resource table, `service.resources.Resources`. */
  predicate HasResourceTable(resources: Value)
  {
    resources.Obj? && "Resources" in resources.fields && resources.fields["Resources"].Obj?
  }

  /** The resources of the template keyed by logical id; none when the section is missing. */
  function ResourceTable(resources: Value): map<string, Value>
  {
    if HasResourceTable(resources) then resources.fields["Resources"].fields
    else map[]
  }

  /** The other sections next to `Resources` (Outputs and the like). */
  function Siblings(resources: Value): map<string, Value>
  {
    if resources.Obj? then resources.fields - {"Resources"} else map[]
  }

  /**
   * `set(service, 'resources.Resources.' + id, role)` (index.js:196): the
   * resource table gains `id` bound to `role`, creating the sections that
   * are missing, and nothing else changes.
   */
  function PutResource(resources: Value, id: string, role: Value): (r: Value)
    ensures r.Obj? && "Resources" in r.fields && r.fields["Resources"].Obj?
    ensures ResourceTable(r) == ResourceTable(resources)[id := role]
    ensures Siblings(r) == Siblings(resources)
  {
    var sections := if resources.Obj? then resources.fields else map[];
    var r := Obj(sections["Resources" := Obj(ResourceTable(resources)[id := role])]);
    assert Siblings(r) == Siblings(resources);
    r
  }

  /** The configuration `createRoles` reads and changes. */
  datatype Service = Service(
    provider: map<string, Value>,                 // service.provider
    functionNames: seq<string>,                   // service.getAllFunctions(), in order
    functions: map<string, map<string, Value>>,   // service.getFunction(name)
    resources: Value)                             // service.resources; Null when undefined

  /** Whether every name is listed at most once. */
  predicate Distinct(names: seq<string>)
  {
    forall i, j :: 0 <= i < j < |names| ==> names[i] != names[j]
  }

  /** Whether every listed function exists and carries its display name. */
  predicate Listed(names: seq<string>, functions: map<string, map<string, Value>>)
  {
    forall i :: 0 <= i < |names| ==> names[i] in functions && DisplayNamed(functions[names[i]])
  }

  /** What the host guarantees: distinct names, each naming a function object with a display name. */
  predicate WellFormed(service: Service)
  {
    Distinct(service.functionNames) && Listed(service.functionNames, service.functions)
  }

  /** The shared policy, built once from `provider.iamRoleStatements` (index.js:170-171). */
  function SharedPolicy(provider: map<string, Value>): (r: Option<Value>)
    ensures r.Some? <==> Truthy(Lookup(provider, "iamRoleStatements"))
                         && Truthy(Get(Lookup(provider, "iamRoleStatements"), "length"))
    ensures r.Some? ==> PolicyName(r.value) == Str("shared")
    ensures r.Some? ==> PolicyStatements(r.value) == Lookup(provider, "iamRoleStatements")
    ensures "iamRoleStatements" !in provider ==> r.None?
  {
    PolicyFromStatements("shared", Lookup(provider, "iamRoleStatements"))
  }

  // Reference definitions of what createRoles produces, function by function.

  /** The role a function gets, or null when building it throws. */
  function RoleOf(functionName: string, functionObj: map<string, Value>, shared: Option<Value>): Value
    requires DisplayNamed(functionObj)
    requires shared.Some? ==> PolicyName(shared.value) == Str("shared")
  {
    match FunctionRole(functionName, functionObj, shared)
    case Success((role, _)) => role
    case Failure(_) => Null
  }

  /** The warnings logged while building a function's role. */
  function WarningsOf(functionName: string, functionObj: map<string, Value>, shared: Option<Value>): seq<Warning>
    requires DisplayNamed(functionObj)
    requires shared.Some? ==> PolicyName(shared.value) == Str("shared")
  {
    match FunctionRole(functionName, functionObj, shared)
    case Success((_, warnings)) => warnings
    case Failure(_) => []
  }

  /** Whether building the role of every listed function completes. */
  predicate AllBuild(names: seq<string>, functions: map<string, map<string, Value>>, shared: Option<Value>)
    requires Listed(names, functions)
    requires shared.Some? ==> PolicyName(shared.value) == Str("shared")
    decreases |names|
  {
    names == [] || (FunctionRole(names[0], functions[names[0]], shared).Success? && AllBuild(names[1..], functions, shared))
  }

  /** All roles build exactly when each listed function's role builds. */
  lemma AllBuildEach(names: seq<string>, functions: map<string, map<string, Value>>, shared: Option<Value>)
    requires Listed(names, functions)
    requires shared.Some? ==> PolicyName(shared.value) == Str("shared")
    ensures AllBuild(names, functions, shared) <==>
      forall i {:trigger FunctionRole(names[i], functions[names[i]], shared)} :: 0 <= i < |names| ==>
        FunctionRole(names[i], functions[names[i]], shared).Success?
  {
    if AllBuild(names, functions, shared) {
      AllBuildEveryOne(names, functions, shared);
    }
    if forall i {:trigger FunctionRole(names[i], functions[names[i]], shared)} :: 0 <= i < |names| ==>
         FunctionRole(names[i], functions[names[i]], shared).Success?
    {
      EveryOneAllBuild(names, functions, shared);
    }
  }

  lemma {:induction false} AllBuildEveryOne(names: seq<string>, functions: map<string, map<string, Value>>,
                                            shared: Option<Value>)
    requires Listed(names, functions)
    requires shared.Some? ==> PolicyName(shared.value) == Str("shared")
    requires AllBuild(names, functions, shared)
    ensures forall i {:trigger FunctionRole(names[i], functions[names[i]], shared)} :: 0 <= i < |names| ==>
      FunctionRole(names[i], functions[names[i]], shared).Success?
    decreases |names|
  {
    if names != [] {
      var rest := names[1..];
      assert AllBuild(rest, functions, shared);
      AllBuildEveryOne(rest, functions, shared);
      forall i | 0 <= i < |names|
        ensures FunctionRole(names[i], functions[names[i]], shared).Success?
      {
        if i > 0 {
          assert names[i] == rest[i - 1];
        }
      }
    }
  }

  lemma {:induction false} EveryOneAllBuild(names: seq<string>, functions: map<string, map<string, Value>>,
                                            shared: Option<Value>)
    requires Listed(names, functions)
    requires shared.Some? ==> PolicyName(shared.value) == Str("shared")
    requires forall i {:trigger FunctionRole(names[i], functions[names[i]], shared)} :: 0 <= i < |names| ==>
      FunctionRole(names[i], functions[names[i]], shared).Success?
    ensures AllBuild(names, functions, shared)
    decreases |names|
  {
    if names != [] {
      forall i | 0 <= i < |names[1..]|
        ensures FunctionRole(names[1..][i], functions[names[1..][i]], shared).Success?
      {
        assert names[1..][i] == names[i + 1];
      }
      EveryOneAllBuild(names[1..], functions, shared);
    }
  }

  /** The role keys of the listed functions. */
  function RoleIds(logicalId: string -> string, names: seq<string>): set<string>
  {
    set i | 0 <= i < |names| :: RoleId(logicalId, names[i])
  }

  /** Template writes `(key, resource)` applied in order: a later write to a key replaces an earlier one. */
  function Apply(writes: seq<(string, Value)>): map<string, Value>
    decreases |writes|
  {
    if writes == [] then map[] else map[writes[0].0 := writes[0].1] + Apply(writes[1..])
  }

  /** Exactly the keys written to are bound. */
  lemma {:induction false} ApplyKeys(writes: seq<(string, Value)>)
    ensures Apply(writes).Keys == set i | 0 <= i < |writes| :: writes[i].0
    decreases |writes|
  {
    if writes != [] {
      ApplyKeys(writes[1..]);
      forall k | k in Apply(writes)
        ensures exists i :: 0 <= i < |writes| && writes[i].0 == k
      {
        if k != writes[0].0 {
          var i :| 0 <= i < |writes[1..]| && writes[1..][i].0 == k;
          assert writes[i + 1] == writes[1..][i];
        }
      }
      forall i | 0 <= i < |writes|
        ensures writes[i].0 in Apply(writes)
      {
        if i > 0 {
          assert writes[1..][i - 1] == writes[i];
        }
      }
    }
  }

  /** A bound key holds what the last write to it wrote. */
  lemma {:induction false} ApplyLast(writes: seq<(string, Value)>, k: string)
    requires k in Apply(writes)
    ensures exists i ::
      && 0 <= i < |writes| && writes[i].0 == k && Apply(writes)[k] == writes[i].1
      && (forall j :: i < j < |writes| ==> writes[j].0 != k)
    decreases |writes|
  {
    var rest := Apply(writes[1..]);
    if k in rest {
      ApplyLast(writes[1..], k);
      var i :| 0 <= i < |writes[1..]| && writes[1..][i].0 == k && rest[k] == writes[1..][i].1
        && (forall j :: i < j < |writes[1..]| ==> writes[1..][j].0 != k);
      assert writes[i + 1] == writes[1..][i];
      forall j | i + 1 < j < |writes| ensures writes[j].0 != k {
        assert writes[j] == writes[1..][j - 1];
      }
    } else {
      assert k == writes[0].0;
      forall j | 0 < j < |writes| ensures writes[j].0 != k {
        assert writes[j] == writes[1..][j - 1];
        ApplyKeys(writes[1..]);
      }
    }
  }

  /** The writes createRoles makes, in order: each listed function's role under its role key. */
  function Writes(logicalId: string -> string, names: seq<string>,
                  functions: map<string, map<string, Value>>, shared: Option<Value>): (w: seq<(string, Value)>)
    requires Listed(names, functions)
    requires shared.Some? ==> PolicyName(shared.value) == Str("shared")
    ensures |w| == |names|
    ensures forall i :: 0 <= i < |names| ==> w[i] == (RoleId(logicalId, names[i]), RoleOf(names[i], functions[names[i]], shared))
  {
    seq(|names|, i requires 0 <= i < |names| => (RoleId(logicalId, names[i]), RoleOf(names[i], functions[names[i]], shared)))
  }

  /** The roles written for the listed functions: a later function wins a shared key. */
  function Written(logicalId: string -> string, names: seq<string>,
                   functions: map<string, map<string, Value>>, shared: Option<Value>): map<string, Value>
    requires Listed(names, functions)
    requires shared.Some? ==> PolicyName(shared.value) == Str("shared")
  {
    Apply(Writes(logicalId, names, functions, shared))
  }

  /** Writing the first function's role, then the rest's. */
  lemma WrittenStep(logicalId: string -> string, names: seq<string>,
                    functions: map<string, map<string, Value>>, shared: Option<Value>)
    requires Listed(names, functions)
    requires shared.Some? ==> PolicyName(shared.value) == Str("shared")
    ensures names == [] ==> Written(logicalId, names, functions, shared) == map[]
    ensures names != [] ==> Listed(names[1..], functions)
    ensures names != [] ==>
      (Written(logicalId, names, functions, shared)
         == map[RoleId(logicalId, names[0]) := RoleOf(names[0], functions[names[0]], shared)]
            + Written(logicalId, names[1..], functions, shared))
  {
    var writes := Writes(logicalId, names, functions, shared);
    if names == [] {
      assert writes == [];
    } else {
      assert Listed(names[1..], functions) by {
        forall i | 0 <= i < |names[1..]| ensures names[1..][i] == names[i + 1] { }
      }
      var rest := Writes(logicalId, names[1..], functions, shared);
      forall i | 0 <= i < |rest|
        ensures writes[1..][i] == rest[i]
      {
        assert names[1..][i] == names[i + 1];
      }
      assert writes[1..] == rest;
    }
  }

  /** The written roles only read the listed functions' objects. */
  lemma WrittenFrame(logicalId: string -> string, names: seq<string>,
                     f1: map<string, map<string, Value>>, f2: map<string, map<string, Value>>, shared: Option<Value>)
    requires Listed(names, f1) && Listed(names, f2)
    requires shared.Some? ==> PolicyName(shared.value) == Str("shared")
    requires forall i :: 0 <= i < |names| ==> RoleOf(names[i], f1[names[i]], shared) == RoleOf(names[i], f2[names[i]], shared)
    ensures Written(logicalId, names, f1, shared) == Written(logicalId, names, f2, shared)
  {
    var w1 := Writes(logicalId, names, f1, shared);
    var w2 := Writes(logicalId, names, f2, shared);
    forall i | 0 <= i < |names| ensures w1[i] == w2[i] { }
    assert w1 == w2;
  }

  /** The warnings of the listed functions, in order. */
  function AllWarnings(names: seq<string>, functions: map<string, map<string, Value>>, shared: Option<Value>)
    : seq<Warning>
    requires Listed(names, functions)
    requires shared.Some? ==> PolicyName(shared.value) == Str("shared")
    decreases |names|
  {
    if names == [] then []
    else WarningsOf(names[0], functions[names[0]], shared) + AllWarnings(names[1..], functions, shared)
  }

  /** The function objects with the listed ones pointing at their role keys. */
  function Assigned(logicalId: string -> string, names: seq<string>, functions: map<string, map<string, Value>>)
    : map<string, map<string, Value>>
  {
    map f | f in functions :: if f in names then functions[f]["role" := Str(RoleId(logicalId, f))] else functions[f]
  }

  /** What the loop of createRoles changes as it goes. */
  datatype Progress = Progress(functions: map<string, map<string, Value>>, resources: Value, warnings: seq<Warning>)

  /** Whether every role builds only depends on the listed functions' objects. */
  lemma {:induction false} AllBuildFrame(names: seq<string>,
                                         f1: map<string, map<string, Value>>, f2: map<string, map<string, Value>>,
                                         shared: Option<Value>)
    requires Listed(names, f1) && Listed(names, f2)
    requires shared.Some? ==> PolicyName(shared.value) == Str("shared")
    requires forall i :: 0 <= i < |names| ==> f1[names[i]] == f2[names[i]]
    ensures AllBuild(names, f1, shared) == AllBuild(names, f2, shared)
    decreases |names|
  {
    if names != [] {
      AllBuildFrame(names[1..], f1, f2, shared);
    }
  }

  /** The warnings only depend on the listed functions' objects. */
  lemma {:induction false} AllWarningsFrame(names: seq<string>,
                                            f1: map<string, map<string, Value>>, f2: map<string, map<string, Value>>,
                                            shared: Option<Value>)
    requires Listed(names, f1) && Listed(names, f2)
    requires shared.Some? ==> PolicyName(shared.value) == Str("shared")
    requires forall i :: 0 <= i < |names| ==> f1[names[i]] == f2[names[i]]
    ensures AllWarnings(names, f1, shared) == AllWarnings(names, f2, shared)
    decreases |names|
  {
    if names != [] {
      AllWarningsFrame(names[1..], f1, f2, shared);
    }
  }

  /** The state after handling the first listed function, whose role is `role`. */
  function Handled(logicalId: string -> string, f: string, role: Value, warnings: seq<Warning>, p: Progress): Progress
    requires f in p.functions
  {
    var roleId := RoleId(logicalId, f);
    Progress(
      p.functions[f := p.functions[f]["role" := Str(roleId)]],
      PutResource(p.resources, roleId, role),
      p.warnings + warnings)
  }

  /** The rest of the functions are listed, distinct and untouched after the first is handled. */
  lemma RestUntouched(names: seq<string>, functions: map<string, map<string, Value>>,
                      updated: map<string, map<string, Value>>)
    requires names != [] && Distinct(names) && Listed(names, functions)
    requires updated.Keys == functions.Keys
    requires forall g :: g in functions && g != names[0] ==> updated[g] == functions[g]
    requires DisplayNamed(updated[names[0]])
    ensures Distinct(names[1..]) && Listed(names[1..], functions) && Listed(names[1..], updated)
    ensures forall i :: 0 <= i < |names[1..]| ==> updated[names[1..][i]] == functions[names[1..][i]]
  {
    var rest := names[1..];
    forall i, j | 0 <= i < j < |rest| ensures rest[i] != rest[j] {
      assert rest[i] == names[i + 1] && rest[j] == names[j + 1];
    }
    forall i | 0 <= i < |rest| ensures rest[i] != names[0] && rest[i] in functions && DisplayNamed(functions[rest[i]]) {
      assert rest[i] == names[i + 1];
    }
  }

  /** Handling the first function leaves the rest listed, distinct and untouched. */
  lemma HandledRest(logicalId: string -> string, names: seq<string>, role: Value, warnings: seq<Warning>, p: Progress)
    requires names != [] && Distinct(names) && Listed(names, p.functions)
    ensures var next := Handled(logicalId, names[0], role, warnings, p);
      && Distinct(names[1..]) && Listed(names[1..], p.functions) && Listed(names[1..], next.functions)
      && (forall i :: 0 <= i < |names[1..]| ==> next.functions[names[1..][i]] == p.functions[names[1..][i]])
  {
    var next := Handled(logicalId, names[0], role, warnings, p);
    RestUntouched(names, p.functions, next.functions);
  }

  /** Writing the first role and then the rest's writes the lot. */
  lemma TableStep(table: map<string, Value>, roleId: string, role: Value, rest: map<string, Value>)
    ensures table[roleId := role] + rest == table + (map[roleId := role] + rest)
  {
  }

  /** The warnings of a role that builds are the ones logged while building it. */
  lemma WarningsOfBuilt(f: string, functionObj: map<string, Value>, shared: Option<Value>,
                        role: Value, warnings: seq<Warning>)
    requires DisplayNamed(functionObj)
    requires shared.Some? ==> PolicyName(shared.value) == Str("shared")
    requires FunctionRole(f, functionObj, shared) == Success((role, warnings))
    ensures WarningsOf(f, functionObj, shared) == warnings
    ensures RoleOf(f, functionObj, shared) == role
  {
  }

  lemma AllWarningsSplit(names: seq<string>, functions: map<string, map<string, Value>>, shared: Option<Value>)
    requires names != [] && Listed(names, functions) && Listed(names[1..], functions)
    requires shared.Some? ==> PolicyName(shared.value) == Str("shared")
    ensures AllWarnings(names, functions, shared)
      == WarningsOf(names[0], functions[names[0]], shared) + AllWarnings(names[1..], functions, shared)
  {
  }

  /** Handling the first function leaves the rest to build exactly when all would have. */
  lemma HandledBuild(logicalId: string -> string, names: seq<string>, shared: Option<Value>, p: Progress,
                     role: Value, warnings: seq<Warning>)
    requires names != [] && Distinct(names) && Listed(names, p.functions)
    requires shared.Some? ==> PolicyName(shared.value) == Str("shared")
    requires FunctionRole(names[0], p.functions[names[0]], shared) == Success((role, warnings))
    ensures var next := Handled(logicalId, names[0], role, warnings, p);
      && Distinct(names[1..]) && Listed(names[1..], next.functions)
      && (AllBuild(names, p.functions, shared) <==> AllBuild(names[1..], next.functions, shared))
  {
    var next := Handled(logicalId, names[0], role, warnings, p);
    HandledRest(logicalId, names, role, warnings, p);
    AllBuildFrame(names[1..], next.functions, p.functions, shared);
  }

  /** The first role written, then the rest's, are all the roles written. */
  lemma HandledTable(logicalId: string -> string, names: seq<string>, shared: Option<Value>, p: Progress,
                     role: Value, warnings: seq<Warning>)
    requires names != [] && Distinct(names) && Listed(names, p.functions)
    requires shared.Some? ==> PolicyName(shared.value) == Str("shared")
    requires FunctionRole(names[0], p.functions[names[0]], shared) == Success((role, warnings))
    ensures var next := Handled(logicalId, names[0], role, warnings, p);
      && Listed(names[1..], next.functions)
      && ResourceTable(next.resources) + Written(logicalId, names[1..], next.functions, shared)
           == ResourceTable(p.resources) + Written(logicalId, names, p.functions, shared)
      && Siblings(next.resources) == Siblings(p.resources)
      && HasResourceTable(next.resources)
  {
    var f := names[0];
    var next := Handled(logicalId, f, role, warnings, p);
    HandledWritten(logicalId, names, shared, p, role, warnings);
    WarningsOfBuilt(f, p.functions[f], shared, role, warnings);
    WrittenStep(logicalId, names, p.functions, shared);
    TableStep(ResourceTable(p.resources), RoleId(logicalId, f), role, Written(logicalId, names[1..], p.functions, shared));
  }

  /** Handling the first function does not change the roles the rest write. */
  lemma HandledWritten(logicalId: string -> string, names: seq<string>, shared: Option<Value>, p: Progress,
                       role: Value, warnings: seq<Warning>)
    requires names != [] && Distinct(names) && Listed(names, p.functions)
    requires shared.Some? ==> PolicyName(shared.value) == Str("shared")
    ensures var next := Handled(logicalId, names[0], role, warnings, p);
      && Listed(names[1..], p.functions)
      && Listed(names[1..], next.functions)
      && Written(logicalId, names[1..], next.functions, shared) == Written(logicalId, names[1..], p.functions, shared)
  {
    var next := Handled(logicalId, names[0], role, warnings, p);
    HandledRest(logicalId, names, role, warnings, p);
    WrittenFrame(logicalId, names[1..], next.functions, p.functions, shared);
  }

  /** The first function's warnings, then the rest's, are all the warnings. */
  lemma HandledWarnings(logicalId: string -> string, names: seq<string>, shared: Option<Value>, p: Progress,
                        role: Value, warnings: seq<Warning>)
    requires names != [] && Distinct(names) && Listed(names, p.functions)
    requires shared.Some? ==> PolicyName(shared.value) == Str("shared")
    requires WarningsOf(names[0], p.functions[names[0]], shared) == warnings
    requires DisplayNamed(p.functions[names[0]]["role" := Str(RoleId(logicalId, names[0]))])
    ensures var next := Handled(logicalId, names[0], role, warnings, p);
      && Listed(names[1..], next.functions)
      && next.warnings + AllWarnings(names[1..], next.functions, shared)
           == p.warnings + AllWarnings(names, p.functions, shared)
  {
    var f := names[0];
    var updated := p.functions[f := p.functions[f]["role" := Str(RoleId(logicalId, f))]];
    RestUntouched(names, p.functions, updated);
    WarningsStep(logicalId, names, p.functions, updated, shared, warnings);
    Seqs.Associate(p.warnings, warnings, AllWarnings(names[1..], updated, shared));
  }

  lemma WarningsStep(logicalId: string -> string, names: seq<string>, functions: map<string, map<string, Value>>,
                     updated: map<string, map<string, Value>>, shared: Option<Value>, warnings: seq<Warning>)
    requires names != [] && Listed(names, functions) && Listed(names[1..], functions) && Listed(names[1..], updated)
    requires shared.Some? ==> PolicyName(shared.value) == Str("shared")
    requires forall i :: 0 <= i < |names[1..]| ==> updated[names[1..][i]] == functions[names[1..][i]]
    requires WarningsOf(names[0], functions[names[0]], shared) == warnings
    ensures warnings + AllWarnings(names[1..], updated, shared) == AllWarnings(names, functions, shared)
  {
    AllWarningsFrame(names[1..], updated, functions, shared);
    AllWarningsSplit(names, functions, shared);
  }

  /**
   * The loop of createRoles over the remaining functions (index.js:174-197),
   * reading each function object from the state as it goes: it throws
   * exactly when building some role throws, and otherwise points every
   * listed function at its role key, writes the roles into the resource
   * table (the other resources and sections untouched), and logs the
   * functions' warnings in order.
   */
  function AddRoles(logicalId: string -> string, names: seq<string>, shared: Option<Value>, p: Progress)
    : (r: Result<Progress, Error>)
    requires Distinct(names) && Listed(names, p.functions)
    requires shared.Some? ==> PolicyName(shared.value) == Str("shared")
    ensures r.Success? <==> AllBuild(names, p.functions, shared)
    ensures r.Success? ==>
      && r.value.functions == Assigned(logicalId, names, p.functions)
      && ResourceTable(r.value.resources) == ResourceTable(p.resources) + Written(logicalId, names, p.functions, shared)
      && Siblings(r.value.resources) == Siblings(p.resources)
      && (names != [] || HasResourceTable(p.resources) ==> HasResourceTable(r.value.resources))
      && r.value.warnings == p.warnings + AllWarnings(names, p.functions, shared)
    decreases |names|
  {
    if names == [] then
      assert Assigned(logicalId, names, p.functions) == p.functions;
      WrittenStep(logicalId, names, p.functions, shared);
      Success(p)
    else
      match FunctionRole(names[0], p.functions[names[0]], shared)
      case Failure(e) => Failure(e)
      case Success((role, warnings)) =>
        HandledBuild(logicalId, names, shared, p, role, warnings);
        HandledTable(logicalId, names, shared, p, role, warnings);
        WarningsOfBuilt(names[0], p.functions[names[0]], shared, role, warnings);
        HandledWarnings(logicalId, names, shared, p, role, warnings);
        AssignedStep(logicalId, names, p.functions);
        AddRoles(logicalId, names[1..], shared, Handled(logicalId, names[0], role, warnings, p))
  }

  /** Assigning the first function's role key, then the rest's, assigns all of them. */
  lemma AssignedStep(logicalId: string -> string, names: seq<string>, functions: map<string, map<string, Value>>)
    requires names != [] && names[0] in functions && Distinct(names)
    ensures Assigned(logicalId, names[1..],
                     functions[names[0] := functions[names[0]]["role" := Str(RoleId(logicalId, names[0]))]])
      == Assigned(logicalId, names, functions)
  {
    var f := names[0];
    var next := functions[f := functions[f]["role" := Str(RoleId(logicalId, f))]];
    assert f !in names[1..] by {
      forall i | 0 <= i < |names[1..]| ensures names[1..][i] != f {
        assert names[1..][i] == names[i + 1];
      }
    }
    forall g | g in functions
      ensures g in names <==> g == f || g in names[1..]
    {
      if g in names && g != f {
        var i :| 0 <= i < |names| && names[i] == g;
        assert names[1..][i - 1] == g;
      }
    }
  }

  /**
   * `createRoles` (index.js:162-198). Without functions it logs "No
   * functions to add roles to" and changes nothing. Otherwise it throws
   * exactly when building some function's role throws; and when it does
   * not, the functions point at their role keys, the roles are written over
   * the resource table, the other sections and the provider are untouched,
   * and the warnings are the functions' warnings in order. The same facts,
   * function by function and key by key, are RoleFacts.CreateRolesThrows,
   * RoleFacts.CreateRolesFunctions and RoleFacts.CreateRolesTable.
   */
  function CreateRoles(service: Service, logicalId: string -> string): (r: Result<(Service, seq<Warning>), Error>)
    requires WellFormed(service)
    ensures service.functionNames == [] ==> r == Success((service, [NoFunctions]))
    ensures service.functionNames != [] ==>
      (r.Success? <==> AllBuild(service.functionNames, service.functions, SharedPolicy(service.provider)))
    ensures r.Success? && service.functionNames != [] ==>
      var out := r.value.0;
      var names := service.functionNames;
      var shared := SharedPolicy(service.provider);
      && out == service.(functions := out.functions, resources := out.resources)
      && out.functions == Assigned(logicalId, names, service.functions)
      && ResourceTable(out.resources) == ResourceTable(service.resources) + Written(logicalId, names, service.functions, shared)
      && Siblings(out.resources) == Siblings(service.resources)
      && HasResourceTable(out.resources)
      && r.value.1 == AllWarnings(names, service.functions, shared)
  {
    if service.functionNames == [] then Success((service, [NoFunctions]))
    else
      var shared := SharedPolicy(service.provider);
      var names := service.functionNames;
      match AddRoles(logicalId, names, shared, Progress(service.functions, service.resources, []))
      case Failure(e) => Failure(e)
      case Success(p) =>
        assert [] + AllWarnings(names, service.functions, shared) == AllWarnings(names, service.functions, shared);
        Success((service.(functions := p.functions, resources := p.resources), p.warnings))
  }

  /** A role builds exactly when the function's stream events can be read. */
  lemma BuildsIffStreams(names: seq<string>, functions: map<string, map<string, Value>>, shared: Option<Value>)
    requires Listed(names, functions)
    requires shared.Some? ==> PolicyName(shared.value) == Str("shared")
    ensures AllBuild(names, functions, shared) <==>
      forall i {:trigger StreamsPolicy(names[i], functions[names[i]])} :: 0 <= i < |names| ==>
        StreamsPolicy(names[i], functions[names[i]]).Success?
  {
    AllBuildEach(names, functions, shared);
    forall i | 0 <= i < |names|
      ensures FunctionRole(names[i], functions[names[i]], shared).Success?
          <==> StreamsPolicy(names[i], functions[names[i]]).Success?
    {
    }
  }

  /** The table after writing every role, read key by key. */
  lemma TableFacts(logicalId: string -> string, names: seq<string>, functions: map<string, map<string, Value>>,
                   shared: Option<Value>, before: map<string, Value>, after: map<string, Value>)
    requires Listed(names, functions)
    requires shared.Some? ==> PolicyName(shared.value) == Str("shared")
    requires AllBuild(names, functions, shared)
    requires after == before + Written(logicalId, names, functions, shared)
    ensures after.Keys == before.Keys + RoleIds(logicalId, names)
    ensures forall k :: k in before && k !in RoleIds(logicalId, names) ==> after[k] == before[k]
    ensures forall i :: 0 <= i < |names| ==> IsLambdaRole(after[RoleId(logicalId, names[i])])
  {
    WrittenKeys(logicalId, names, functions, shared);
    WrittenAreLambdaRoles(logicalId, names, functions, shared);
    forall i | 0 <= i < |names|
      ensures IsLambdaRole(after[RoleId(logicalId, names[i])])
    {
      assert RoleId(logicalId, names[i]) in RoleIds(logicalId, names);
    }
  }

  /** The function objects after assignment, read name by name. */
  lemma AssignedFacts(logicalId: string -> string, names: seq<string>, functions: map<string, map<string, Value>>,
                      out: map<string, map<string, Value>>)
    requires Listed(names, functions)
    requires out == Assigned(logicalId, names, functions)
    ensures out.Keys == functions.Keys
    ensures forall i :: 0 <= i < |names| ==>
      out[names[i]] == functions[names[i]]["role" := Str(RoleId(logicalId, names[i]))]
    ensures forall f :: f in functions && f !in names ==> out[f] == functions[f]
  {
  }

  /** The roles are written under exactly the listed functions' role keys. */
  lemma WrittenKeys(logicalId: string -> string, names: seq<string>,
                    functions: map<string, map<string, Value>>, shared: Option<Value>)
    requires Listed(names, functions)
    requires shared.Some? ==> PolicyName(shared.value) == Str("shared")
    ensures Written(logicalId, names, functions, shared).Keys == RoleIds(logicalId, names)
  {
    var writes := Writes(logicalId, names, functions, shared);
    ApplyKeys(writes);
    forall k | k in RoleIds(logicalId, names)
      ensures exists i :: 0 <= i < |writes| && writes[i].0 == k
    {
      var i :| 0 <= i < |names| && RoleId(logicalId, names[i]) == k;
      assert writes[i].0 == k;
    }
    forall i | 0 <= i < |writes|
      ensures writes[i].0 in RoleIds(logicalId, names)
    {
      assert writes[i].0 == RoleId(logicalId, names[i]);
    }
  }

  /**
   * Every written role is the role of a listed function with that key; of
   * the last such function, since a later write replaces an earlier one.
   */
  lemma WrittenRoles(logicalId: string -> string, names: seq<string>,
                     functions: map<string, map<string, Value>>, shared: Option<Value>, k: string)
    requires Listed(names, functions)
    requires shared.Some? ==> PolicyName(shared.value) == Str("shared")
    requires k in Written(logicalId, names, functions, shared)
    ensures exists i ::
      && 0 <= i < |names| && RoleId(logicalId, names[i]) == k
      && Written(logicalId, names, functions, shared)[k] == RoleOf(names[i], functions[names[i]], shared)
      && (forall j :: i < j < |names| ==> RoleId(logicalId, names[j]) != k)
  {
    var writes := Writes(logicalId, names, functions, shared);
    ApplyLast(writes, k);
    var i :| 0 <= i < |writes| && writes[i].0 == k && Apply(writes)[k] == writes[i].1
      && (forall j :: i < j < |writes| ==> writes[j].0 != k);
    forall j | i < j < |names| ensures RoleId(logicalId, names[j]) != k {
      assert writes[j].0 == RoleId(logicalId, names[j]);
    }
  }

  /** When every role builds, every role written is one Lambda may assume. */
  lemma WrittenAreLambdaRoles(logicalId: string -> string, names: seq<string>,
                              functions: map<string, map<string, Value>>, shared: Option<Value>)
    requires Listed(names, functions)
    requires shared.Some? ==> PolicyName(shared.value) == Str("shared")
    requires AllBuild(names, functions, shared)
    ensures forall k :: k in Written(logicalId, names, functions, shared) ==>
      IsLambdaRole(Written(logicalId, names, functions, shared)[k])
  {
    AllBuildEach(names, functions, shared);
    forall k | k in Written(logicalId, names, functions, shared)
      ensures IsLambdaRole(Written(logicalId, names, functions, shared)[k])
    {
      WrittenRoles(logicalId, names, functions, shared, k);
      var i :| 0 <= i < |names| && Written(logicalId, names, functions, shared)[k] == RoleOf(names[i], functions[names[i]], shared);
      assert FunctionRole(names[i], functions[names[i]], shared).Success?;
    }
  }
}
