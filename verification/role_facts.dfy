/**
 * Properties of createRoles as a whole: running it twice changes nothing
 * more, the role under each key is the role built for its function, the
 * warnings all name listed functions, and a bare function gets the logging
 * policy alone.
 */
module RoleFacts {
  import opened Wrappers
  import opened Json
  import opened Policies
  import opened Diagnostics
  import opened Streams
  import opened Roles
  import StreamFacts

  /** Whether two function objects agree on the three fields a role is built from. */
  predicate SameConfig(fo1: map<string, Value>, fo2: map<string, Value>)
  {
    && Lookup(fo1, "name") == Lookup(fo2, "name")
    && Lookup(fo1, "iamRoleStatements") == Lookup(fo2, "iamRoleStatements")
    && Events(fo1) == Events(fo2)
  }

  /** Building a role reads the display name, the statements and the events, and nothing else. */
  lemma ConfigDeterminesRole(functionName: string, fo1: map<string, Value>, fo2: map<string, Value>, shared: Option<Value>)
    requires DisplayNamed(fo1) && SameConfig(fo1, fo2)
    requires shared.Some? ==> PolicyName(shared.value) == Str("shared")
    ensures DisplayNamed(fo2)
    ensures FunctionRole(functionName, fo1, shared) == FunctionRole(functionName, fo2, shared)
  {
    assert StreamsPolicy(functionName, fo1) == StreamsPolicy(functionName, fo2);
    assert DisplayName(fo1) == DisplayName(fo2);
  }

  /** The `role` field a run writes is not one of them. */
  lemma RoleFieldIgnored(fo: map<string, Value>, roleId: Value)
    ensures SameConfig(fo, fo["role" := roleId])
  {
    assert Events(fo["role" := roleId]) == Events(fo);
  }

  /** The role and the warnings of a function therefore depend only on its configuration. */
  lemma ConfigDeterminesOutcome(functionName: string, fo1: map<string, Value>, fo2: map<string, Value>, shared: Option<Value>)
    requires DisplayNamed(fo1) && SameConfig(fo1, fo2)
    requires shared.Some? ==> PolicyName(shared.value) == Str("shared")
    ensures DisplayNamed(fo2)
    ensures RoleOf(functionName, fo1, shared) == RoleOf(functionName, fo2, shared)
    ensures WarningsOf(functionName, fo1, shared) == WarningsOf(functionName, fo2, shared)
  {
    ConfigDeterminesRole(functionName, fo1, fo2, shared);
  }

  /** The tail of a list of functions agreeing on their configuration agrees too. */
  lemma ConfigTail(names: seq<string>, f1: map<string, map<string, Value>>, f2: map<string, map<string, Value>>)
    requires names != [] && Listed(names, f1) && Listed(names, f2)
    requires forall i :: 0 <= i < |names| ==> SameConfig(f1[names[i]], f2[names[i]])
    ensures Listed(names[1..], f1) && Listed(names[1..], f2)
    ensures forall i :: 0 <= i < |names[1..]| ==> SameConfig(f1[names[1..][i]], f2[names[1..][i]])
  {
    forall i | 0 <= i < |names[1..]|
      ensures names[1..][i] == names[i + 1]
    {
    }
  }

  /** The roles written only depend on the configuration of the listed functions. */
  lemma ConfigFrameWritten(logicalId: string -> string, names: seq<string>,
                           f1: map<string, map<string, Value>>, f2: map<string, map<string, Value>>,
                           shared: Option<Value>)
    requires Listed(names, f1) && Listed(names, f2)
    requires shared.Some? ==> PolicyName(shared.value) == Str("shared")
    requires forall i :: 0 <= i < |names| ==> SameConfig(f1[names[i]], f2[names[i]])
    ensures Written(logicalId, names, f1, shared) == Written(logicalId, names, f2, shared)
  {
    forall i | 0 <= i < |names|
      ensures RoleOf(names[i], f1[names[i]], shared) == RoleOf(names[i], f2[names[i]], shared)
    {
      ConfigDeterminesOutcome(names[i], f1[names[i]], f2[names[i]], shared);
    }
    WrittenFrame(logicalId, names, f1, f2, shared);
  }

  /** Nor do the warnings logged. */
  lemma {:induction false} ConfigFrameWarnings(names: seq<string>,
                                               f1: map<string, map<string, Value>>, f2: map<string, map<string, Value>>,
                                               shared: Option<Value>)
    requires Listed(names, f1) && Listed(names, f2)
    requires shared.Some? ==> PolicyName(shared.value) == Str("shared")
    requires forall i :: 0 <= i < |names| ==> SameConfig(f1[names[i]], f2[names[i]])
    ensures AllWarnings(names, f1, shared) == AllWarnings(names, f2, shared)
    decreases |names|
  {
    if names != [] {
      ConfigTail(names, f1, f2);
      ConfigFrameWarnings(names[1..], f1, f2, shared);
      ConfigDeterminesOutcome(names[0], f1[names[0]], f2[names[0]], shared);
    }
  }

  /** Whether all roles build likewise depends only on the configuration. */
  lemma ConfigFrameBuild(names: seq<string>, f1: map<string, map<string, Value>>, f2: map<string, map<string, Value>>,
                         shared: Option<Value>)
    requires Listed(names, f1) && Listed(names, f2)
    requires shared.Some? ==> PolicyName(shared.value) == Str("shared")
    requires forall i :: 0 <= i < |names| ==> SameConfig(f1[names[i]], f2[names[i]])
    ensures AllBuild(names, f1, shared) == AllBuild(names, f2, shared)
  {
    AllBuildEach(names, f1, shared);
    AllBuildEach(names, f2, shared);
    forall i | 0 <= i < |names|
      ensures FunctionRole(names[i], f1[names[i]], shared) == FunctionRole(names[i], f2[names[i]], shared)
    {
      ConfigDeterminesRole(names[i], f1[names[i]], f2[names[i]], shared);
    }
  }

  /** Two templates with the same resource table and the same other sections are the same. */
  lemma SameTemplate(a: Value, b: Value)
    requires HasResourceTable(a) && HasResourceTable(b)
    requires ResourceTable(a) == ResourceTable(b) && Siblings(a) == Siblings(b)
    ensures a == b
  {
    forall k | k in a.fields
      ensures k in b.fields && a.fields[k] == b.fields[k]
    {
      if k != "Resources" {
        assert k in Siblings(a);
      }
    }
    forall k | k in b.fields
      ensures k in a.fields
    {
      if k != "Resources" {
        assert k in Siblings(b);
      }
    }
    assert a.fields == b.fields;
  }

  /** createRoles throws exactly when some function's stream events cannot be read. */
  lemma CreateRolesThrows(service: Service, logicalId: string -> string)
    requires WellFormed(service) && service.functionNames != []
    ensures CreateRoles(service, logicalId).Success? <==>
      forall i {:trigger StreamsPolicy(service.functionNames[i], service.functions[service.functionNames[i]])} ::
        0 <= i < |service.functionNames| ==>
        StreamsPolicy(service.functionNames[i], service.functions[service.functionNames[i]]).Success?
  {
    BuildsIffStreams(service.functionNames, service.functions, SharedPolicy(service.provider));
  }

  /**
   * After createRoles every listed function, and no other, points at its
   * role key, and the provider and the function list are untouched.
   */
  lemma CreateRolesFunctions(service: Service, logicalId: string -> string)
    requires WellFormed(service) && service.functionNames != []
    requires CreateRoles(service, logicalId).Success?
    ensures var out := CreateRoles(service, logicalId).value.0;
      var names := service.functionNames;
      && out.provider == service.provider
      && out.functionNames == names
      && out.functions.Keys == service.functions.Keys
      && (forall i :: 0 <= i < |names| ==>
            out.functions[names[i]] == service.functions[names[i]]["role" := Str(RoleId(logicalId, names[i]))])
      && (forall f :: f in service.functions && f !in names ==> out.functions[f] == service.functions[f])
  {
    var out := CreateRoles(service, logicalId).value.0;
    AssignedFacts(logicalId, service.functionNames, service.functions, out.functions);
  }

  /**
   * After createRoles the resource table keeps its old resources except
   * under the role keys and gains one Lambda-assumable role per role key;
   * the other sections of the resources are untouched.
   */
  lemma CreateRolesTable(service: Service, logicalId: string -> string)
    requires WellFormed(service) && service.functionNames != []
    requires CreateRoles(service, logicalId).Success?
    ensures var out := CreateRoles(service, logicalId).value.0;
      var names := service.functionNames;
      var before := ResourceTable(service.resources);
      var after := ResourceTable(out.resources);
      && after.Keys == before.Keys + RoleIds(logicalId, names)
      && (forall k :: k in before && k !in RoleIds(logicalId, names) ==> after[k] == before[k])
      && (forall i :: 0 <= i < |names| ==> IsLambdaRole(after[RoleId(logicalId, names[i])]))
      && HasResourceTable(out.resources)
      && Siblings(out.resources) == Siblings(service.resources)
  {
    var out := CreateRoles(service, logicalId).value.0;
    TableFacts(logicalId, service.functionNames, service.functions, SharedPolicy(service.provider),
               ResourceTable(service.resources), ResourceTable(out.resources));
  }

  /**
   * Running the loop again over the state it produced, with no warnings
   * yet, finds every role building again and writes nothing new.
   */
  lemma SecondPass(logicalId: string -> string, names: seq<string>, shared: Option<Value>,
                   functions: map<string, map<string, Value>>, resources: Value, once: Progress)
    requires Distinct(names) && Listed(names, functions)
    requires shared.Some? ==> PolicyName(shared.value) == Str("shared")
    requires AllBuild(names, functions, shared)
    requires once.functions == Assigned(logicalId, names, functions)
    requires ResourceTable(once.resources) == ResourceTable(resources) + Written(logicalId, names, functions, shared)
    requires HasResourceTable(once.resources)
    requires once.warnings == AllWarnings(names, functions, shared)
    ensures Listed(names, once.functions)
    ensures AddRoles(logicalId, names, shared, Progress(once.functions, once.resources, [])) == Success(once)
  {
    AssignedConfig(logicalId, names, shared, functions);
    var again := AddRoles(logicalId, names, shared, Progress(once.functions, once.resources, []));
    assert again.Success?;
    AssignedTwice(logicalId, names, functions);
    UnionAbsorbs(ResourceTable(resources), Written(logicalId, names, functions, shared));
    SameTemplate(again.value.resources, once.resources);
    assert [] + once.warnings == once.warnings;
    assert again.value.functions == once.functions;
    assert again.value.warnings == once.warnings;
    assert again.value == Progress(once.functions, once.resources, once.warnings);
  }

  /** After the functions point at their role keys, the roles they build and the warnings are as before. */
  lemma AssignedConfig(logicalId: string -> string, names: seq<string>, shared: Option<Value>,
                       functions: map<string, map<string, Value>>)
    requires Listed(names, functions)
    requires shared.Some? ==> PolicyName(shared.value) == Str("shared")
    ensures var pointed := Assigned(logicalId, names, functions);
      && Listed(names, pointed)
      && AllBuild(names, pointed, shared) == AllBuild(names, functions, shared)
      && Written(logicalId, names, pointed, shared) == Written(logicalId, names, functions, shared)
      && AllWarnings(names, pointed, shared) == AllWarnings(names, functions, shared)
  {
    var pointed := Assigned(logicalId, names, functions);
    forall i | 0 <= i < |names|
      ensures names[i] in pointed
      ensures pointed[names[i]] == functions[names[i]]["role" := Str(RoleId(logicalId, names[i]))]
      ensures DisplayNamed(pointed[names[i]]) && SameConfig(functions[names[i]], pointed[names[i]])
    {
      RoleFieldIgnored(functions[names[i]], Str(RoleId(logicalId, names[i])));
    }
    ConfigFrameWritten(logicalId, names, functions, pointed, shared);
    ConfigFrameWarnings(names, functions, pointed, shared);
    ConfigFrameBuild(names, functions, pointed, shared);
  }

  /** Writing the same entries twice writes them once. */
  lemma UnionAbsorbs(table: map<string, Value>, written: map<string, Value>)
    ensures table + written + written == table + written
  {
  }

  /** Pointing the functions at their role keys a second time changes nothing. */
  lemma AssignedTwice(logicalId: string -> string, names: seq<string>, functions: map<string, map<string, Value>>)
    ensures Assigned(logicalId, names, Assigned(logicalId, names, functions)) == Assigned(logicalId, names, functions)
  {
    var once := Assigned(logicalId, names, functions);
    var twice := Assigned(logicalId, names, once);
    assert twice.Keys == once.Keys;
    forall f | f in once
      ensures twice[f] == once[f]
    {
      if f in names {
        assert once[f] == functions[f]["role" := Str(RoleId(logicalId, f))];
        assert once[f]["role" := Str(RoleId(logicalId, f))] == once[f];
      }
    }
  }

  /**
   * createRoles is idempotent: run again on the service it produced, it
   * succeeds, changes nothing and logs the same warnings again.
   */
  lemma CreateRolesIdempotent(service: Service, logicalId: string -> string)
    requires WellFormed(service)
    requires CreateRoles(service, logicalId).Success?
    ensures var once := CreateRoles(service, logicalId).value;
      WellFormed(once.0) && CreateRoles(once.0, logicalId) == Success(once)
  {
    var names := service.functionNames;
    if names == [] {
      assert CreateRoles(service, logicalId) == Success((service, [NoFunctions]));
    } else {
      var shared := SharedPolicy(service.provider);
      var once := CreateRoles(service, logicalId).value;
      var state := Progress(once.0.functions, once.0.resources, once.1);
      SecondPass(logicalId, names, shared, service.functions, service.resources, state);
      assert SharedPolicy(once.0.provider) == shared;
      assert AddRoles(logicalId, names, shared, Progress(once.0.functions, once.0.resources, [])) == Success(state);
    }
  }

  /** Every function's logical id differs from every other's. */
  predicate DistinctIds(logicalId: string -> string, names: seq<string>)
  {
    forall a, b :: 0 <= a < |names| && 0 <= b < |names| && logicalId(names[a]) == logicalId(names[b]) ==> a == b
  }

  /**
   * The role stored under a role key is the role built for the last listed
   * function with that key; a function whose logical id collides with a
   * later one's loses its role.
   */
  lemma RoleUnderKey(service: Service, logicalId: string -> string, k: string)
    requires WellFormed(service) && service.functionNames != []
    requires CreateRoles(service, logicalId).Success?
    requires k in RoleIds(logicalId, service.functionNames)
    ensures k in ResourceTable(CreateRoles(service, logicalId).value.0.resources)
    ensures var names := service.functionNames;
      var table := ResourceTable(CreateRoles(service, logicalId).value.0.resources);
      exists i ::
        && 0 <= i < |names| && RoleId(logicalId, names[i]) == k
        && (forall j :: i < j < |names| ==> RoleId(logicalId, names[j]) != k)
        && table[k] == RoleOf(names[i], service.functions[names[i]], SharedPolicy(service.provider))
  {
    WrittenUnder(logicalId, service.functionNames, service.functions, SharedPolicy(service.provider),
                 ResourceTable(service.resources), ResourceTable(CreateRoles(service, logicalId).value.0.resources), k);
  }

  /** A table the roles were written over holds, under each role key, the last role written there. */
  lemma WrittenUnder(logicalId: string -> string, names: seq<string>, functions: map<string, map<string, Value>>,
                     shared: Option<Value>, before: map<string, Value>, after: map<string, Value>, k: string)
    requires Listed(names, functions)
    requires shared.Some? ==> PolicyName(shared.value) == Str("shared")
    requires after == before + Written(logicalId, names, functions, shared)
    requires k in RoleIds(logicalId, names)
    ensures k in after
    ensures exists i ::
      && 0 <= i < |names| && RoleId(logicalId, names[i]) == k
      && (forall j :: i < j < |names| ==> RoleId(logicalId, names[j]) != k)
      && after[k] == RoleOf(names[i], functions[names[i]], shared)
  {
    WrittenKeys(logicalId, names, functions, shared);
    WrittenRoles(logicalId, names, functions, shared, k);
  }

  /** With distinct logical ids, the role under a function's key is the one built for it. */
  lemma RoleUnderOwnKey(service: Service, logicalId: string -> string, i: nat)
    requires WellFormed(service) && DistinctIds(logicalId, service.functionNames)
    requires CreateRoles(service, logicalId).Success?
    requires i < |service.functionNames|
    ensures var names := service.functionNames;
      var table := ResourceTable(CreateRoles(service, logicalId).value.0.resources);
      && FunctionRole(names[i], service.functions[names[i]], SharedPolicy(service.provider)).Success?
      && RoleId(logicalId, names[i]) in table
      && table[RoleId(logicalId, names[i])] == RoleOf(names[i], service.functions[names[i]], SharedPolicy(service.provider))
  {
    var names := service.functionNames;
    var shared := SharedPolicy(service.provider);
    var k := RoleId(logicalId, names[i]);
    assert k in RoleIds(logicalId, names);
    RoleUnderKey(service, logicalId, k);
    var table := ResourceTable(CreateRoles(service, logicalId).value.0.resources);
    var j :| 0 <= j < |names| && RoleId(logicalId, names[j]) == k
      && table[k] == RoleOf(names[j], service.functions[names[j]], shared);
    RoleIdInjective(logicalId, names[i], names[j]);
    assert j == i;
    AllBuildEach(names, service.functions, shared);
    assert FunctionRole(names[i], service.functions[names[i]], shared).Success?;
  }

  /**
   * The role a function builds: Lambda may assume it, and it holds the
   * logging policy of the function's display name, then the shared, custom
   * and streams policies that exist, in that order.
   */
  lemma RoleShape(functionName: string, functionObj: map<string, Value>, shared: Option<Value>)
    requires DisplayNamed(functionObj)
    requires shared.Some? ==> PolicyName(shared.value) == Str("shared")
    requires FunctionRole(functionName, functionObj, shared).Success?
    ensures var custom := PolicyFromStatements("custom", Lookup(functionObj, "iamRoleStatements"));
      var streams := StreamsPolicy(functionName, functionObj);
      var role := RoleOf(functionName, functionObj, shared);
      && streams.Success?
      && IsLambdaRole(role)
      && RolePolicies(role)
           == Arr([LoggingPolicy(DisplayName(functionObj)).value] + Present(shared) + Present(custom) + Present(streams.value.0))
      && PolicyNames(RolePolicies(role).items)
           == [Str("logging")] + NameIfPresent(shared, "shared") + NameIfPresent(custom, "custom")
              + NameIfPresent(streams.value.0, "streams")
  {
    RolePolicyOrder(functionName, functionObj, shared);
  }

  /** With distinct logical ids, every function's role key holds a role of that shape. */
  lemma RoleOfEachFunction(service: Service, logicalId: string -> string, i: nat)
    requires WellFormed(service) && DistinctIds(logicalId, service.functionNames)
    requires CreateRoles(service, logicalId).Success?
    requires i < |service.functionNames|
    ensures RoleId(logicalId, service.functionNames[i]) in ResourceTable(CreateRoles(service, logicalId).value.0.resources)
    ensures StreamsPolicy(service.functionNames[i], service.functions[service.functionNames[i]]).Success?
    ensures var names := service.functionNames;
      var functionObj := service.functions[names[i]];
      var shared := SharedPolicy(service.provider);
      var custom := PolicyFromStatements("custom", Lookup(functionObj, "iamRoleStatements"));
      var streams := StreamsPolicy(names[i], functionObj);
      var role := ResourceTable(CreateRoles(service, logicalId).value.0.resources)[RoleId(logicalId, names[i])];
      && IsLambdaRole(role)
      && RolePolicies(role)
           == Arr([LoggingPolicy(DisplayName(functionObj)).value] + Present(shared) + Present(custom) + Present(streams.value.0))
      && PolicyNames(RolePolicies(role).items)
           == [Str("logging")] + NameIfPresent(shared, "shared") + NameIfPresent(custom, "custom")
              + NameIfPresent(streams.value.0, "streams")
  {
    var names := service.functionNames;
    RoleUnderOwnKey(service, logicalId, i);
    RoleShape(names[i], service.functions[names[i]], SharedPolicy(service.provider));
  }

  /** Every warning of a function names that function. */
  lemma WarningsOfNameIt(functionName: string, functionObj: map<string, Value>, shared: Option<Value>)
    requires DisplayNamed(functionObj)
    requires shared.Some? ==> PolicyName(shared.value) == Str("shared")
    ensures AboutListed(WarningsOf(functionName, functionObj, shared), [functionName])
  {
    var warnings := WarningsOf(functionName, functionObj, shared);
    var streams := StreamsPolicy(functionName, functionObj);
    if streams.Success? && Events(functionObj).Arr? {
      assert warnings == streams.value.1 == Warned(functionName, Events(functionObj).items);
      StreamFacts.WarningsNameTheFunction(functionName, Events(functionObj).items);
      forall j | 0 <= j < |warnings|
        ensures warnings[j] != NoFunctions && warnings[j].functionName in [functionName]
      {
        assert warnings[j] in {SourceNotConfigured(functionName), TypeNotConfigured(functionName)};
      }
    } else {
      assert warnings == [];
    }
  }

  /** Whether every warning is a stream warning about one of `names`. */
  predicate AboutListed(warnings: seq<Warning>, names: seq<string>)
  {
    forall j :: 0 <= j < |warnings| ==> warnings[j] != NoFunctions && warnings[j].functionName in names
  }

  lemma AboutListedConcat(first: seq<Warning>, rest: seq<Warning>, names: seq<string>)
    requires names != []
    requires AboutListed(first, [names[0]]) && AboutListed(rest, names[1..])
    ensures AboutListed(first + rest, names)
  {
    forall j | 0 <= j < |first + rest|
      ensures (first + rest)[j] != NoFunctions && (first + rest)[j].functionName in names
    {
      if j < |first| {
        assert (first + rest)[j] == first[j];
        assert first[j].functionName in [names[0]];
      } else {
        assert (first + rest)[j] == rest[j - |first|];
        assert rest[j - |first|].functionName in names[1..];
      }
    }
  }

  /** Every warning of the listed functions names one of them. */
  lemma {:induction false} AllWarningsNameListed(names: seq<string>, functions: map<string, map<string, Value>>,
                                                 shared: Option<Value>)
    requires Listed(names, functions)
    requires shared.Some? ==> PolicyName(shared.value) == Str("shared")
    ensures AboutListed(AllWarnings(names, functions, shared), names)
    decreases |names|
  {
    if names != [] {
      AllWarningsNameListed(names[1..], functions, shared);
      WarningsOfNameIt(names[0], functions[names[0]], shared);
      AboutListedConcat(WarningsOf(names[0], functions[names[0]], shared), AllWarnings(names[1..], functions, shared), names);
    }
  }

  /** The warnings of a run are all about misconfigured stream events of listed functions. */
  lemma RunWarningsNameListed(service: Service, logicalId: string -> string)
    requires WellFormed(service) && service.functionNames != []
    requires CreateRoles(service, logicalId).Success?
    ensures AboutListed(CreateRoles(service, logicalId).value.1, service.functionNames)
  {
    AllWarningsNameListed(service.functionNames, service.functions, SharedPolicy(service.provider));
  }

  /** A service with one function that declares nothing beyond its display name, and no template yet. */
  function BareService(functionName: string, displayName: string): (service: Service)
    ensures service.functionNames == [functionName]
    ensures WellFormed(service)
    ensures functionName in service.functions && DisplayNamed(service.functions[functionName])
    ensures DisplayName(service.functions[functionName]) == displayName
    ensures Lookup(service.functions[functionName], "iamRoleStatements") == Null
    ensures Events(service.functions[functionName]) == Null
    ensures SharedPolicy(service.provider).None?
    ensures ResourceTable(service.resources) == map[]
  {
    Service(map[], [functionName], map[functionName := map["name" := Str(displayName)]], Null)
  }

  /** Nothing in the bare service can throw or warn: there are no events. */
  lemma BareServiceQuiet(logicalId: string -> string, functionName: string, displayName: string)
    ensures var service := BareService(functionName, displayName);
      && CreateRoles(service, logicalId).Success?
      && CreateRoles(service, logicalId).value.1 == []
  {
    var service := BareService(functionName, displayName);
    var functionObj := service.functions[functionName];
    assert StreamsPolicy(service.functionNames[0], service.functions[service.functionNames[0]]) == Success((None, []));
    BuildsIffStreams(service.functionNames, service.functions, SharedPolicy(service.provider));
    assert CreateRoles(service, logicalId).Success?;
    assert WarningsOf(functionName, functionObj, SharedPolicy(service.provider)) == [];
    assert AllWarnings(service.functionNames, service.functions, SharedPolicy(service.provider)) == [] + [];
  }

  /** A single function has a single role key. */
  lemma SingleRoleId(logicalId: string -> string, names: seq<string>)
    requires |names| == 1
    ensures RoleIds(logicalId, names) == {RoleId(logicalId, names[0])}
  {
    assert RoleId(logicalId, names[0]) in RoleIds(logicalId, names);
  }

  /** In a service of one function, that function points at its role key. */
  lemma SingleFunctionPointsAtRole(service: Service, logicalId: string -> string)
    requires WellFormed(service) && |service.functionNames| == 1
    requires CreateRoles(service, logicalId).Success?
    ensures var out := CreateRoles(service, logicalId).value.0;
      var f := service.functionNames[0];
      && f in out.functions && "role" in out.functions[f]
      && out.functions[f]["role"] == Str(RoleId(logicalId, f))
  {
    var out := CreateRoles(service, logicalId).value.0;
    var f := service.functionNames[0];
    CreateRolesFunctions(service, logicalId);
    assert out.functions[f] == service.functions[f]["role" := Str(RoleId(logicalId, f))];
  }

  /** A service of one function and no resources yet ends with a table of that one role. */
  lemma SingleFunctionTable(service: Service, logicalId: string -> string)
    requires WellFormed(service) && |service.functionNames| == 1
    requires ResourceTable(service.resources) == map[]
    requires CreateRoles(service, logicalId).Success?
    ensures ResourceTable(CreateRoles(service, logicalId).value.0.resources).Keys
      == {RoleId(logicalId, service.functionNames[0])}
  {
    CreateRolesTable(service, logicalId);
    SingleRoleId(logicalId, service.functionNames);
  }

  /** The bare function points at its role key, and the new table holds that one role. */
  lemma BareServiceTable(logicalId: string -> string, functionName: string, displayName: string)
    ensures CreateRoles(BareService(functionName, displayName), logicalId).Success?
    ensures var out := CreateRoles(BareService(functionName, displayName), logicalId).value.0;
      && functionName in out.functions && "role" in out.functions[functionName]
      && out.functions[functionName]["role"] == Str(RoleId(logicalId, functionName))
      && ResourceTable(out.resources).Keys == {RoleId(logicalId, functionName)}
  {
    var service := BareService(functionName, displayName);
    BareServiceQuiet(logicalId, functionName, displayName);
    SingleFunctionPointsAtRole(service, logicalId);
    SingleFunctionTable(service, logicalId);
  }

  /** A function with no statements, no stream events and no shared policy gets the logging policy alone. */
  lemma LoggingOnlyRole(functionName: string, functionObj: map<string, Value>, shared: Option<Value>)
    requires DisplayNamed(functionObj) && shared.None?
    requires !Truthy(Lookup(functionObj, "iamRoleStatements")) && !Truthy(Events(functionObj))
    ensures FunctionRole(functionName, functionObj, shared).Success?
    ensures RolePolicies(RoleOf(functionName, functionObj, shared)) == Arr([LoggingPolicy(DisplayName(functionObj)).value])
  {
    assert [LoggingPolicy(DisplayName(functionObj)).value] + [] + [] + [] == [LoggingPolicy(DisplayName(functionObj)).value];
  }

  /** The bare function's role carries the logging policy alone. */
  lemma BareServiceRole(logicalId: string -> string, functionName: string, displayName: string)
    ensures CreateRoles(BareService(functionName, displayName), logicalId).Success?
    ensures var out := CreateRoles(BareService(functionName, displayName), logicalId).value.0;
      && RoleId(logicalId, functionName) in ResourceTable(out.resources)
      && RolePolicies(ResourceTable(out.resources)[RoleId(logicalId, functionName)])
           == Arr([LoggingPolicy(displayName).value])
  {
    var service := BareService(functionName, displayName);
    BareServiceQuiet(logicalId, functionName, displayName);
    assert DistinctIds(logicalId, service.functionNames);
    RoleUnderOwnKey(service, logicalId, 0);
    LoggingOnlyRole(functionName, service.functions[functionName], SharedPolicy(service.provider));
  }
}
