/**
 * Inline IAM policy documents: the shared builder that turns a statement
 * list into an optional policy, and the fixed CloudWatch Logs policy.
 */
module Policies {
  import opened Wrappers
  import opened Json
  import Strings

  /** The IAM policy language version every generated document declares. */
  const PolicyVersion: string := "2012-10-17"

  // Readers for the parts of a policy `{PolicyName, PolicyDocument: {Version, Statement}}`.

  function PolicyName(p: Value): Value
  {
    Get(p, "PolicyName")
  }

  function PolicyVersionOf(p: Value): Value
  {
    Get(Get(p, "PolicyDocument"), "Version")
  }

  function PolicyStatements(p: Value): Value
  {
    Get(Get(p, "PolicyDocument"), "Statement")
  }

  /** The number of statements of a policy whose statement list is an array. */
  function StatementCount(p: Value): nat
  {
    var s := PolicyStatements(p);
    if s.Arr? then |s.items| else 0
  }

  /** The `i`-th statement of a policy, `undefined` when there is none. */
  function Statement(p: Value, i: nat): Value
  {
    var s := PolicyStatements(p);
    if s.Arr? && i < |s.items| then s.items[i] else Null
  }

  /**
   * The policy called `name` wrapping `statements` verbatim, or None when the
   * statement source is falsy or has a falsy length (index.js:24-36), so a
   * policy that exists never has an empty statement list.
   */
  function PolicyFromStatements(name: string, statements: Value): (r: Option<Value>)
    ensures r.None? <==> !Truthy(statements) || !Truthy(Get(statements, "length"))
    ensures statements.Arr? ==> (r.None? <==> statements.items == [])
    ensures statements.Null? ==> r.None?
    ensures r.Some? ==> PolicyName(r.value) == Str(name)
    ensures r.Some? ==> PolicyVersionOf(r.value) == Str(PolicyVersion)
    ensures r.Some? ==> PolicyStatements(r.value) == statements
    ensures r.Some? ==> r.value.Obj? && r.value.fields.Keys == {"PolicyName", "PolicyDocument"}
    ensures r.Some? ==> Get(r.value, "PolicyDocument").Obj? && Get(r.value, "PolicyDocument").fields.Keys == {"Version", "Statement"}
    ensures r.Some? ==> Truthy(PolicyStatements(r.value)) && Truthy(Get(PolicyStatements(r.value), "length"))
  {
    if !Truthy(statements) || !Truthy(Get(statements, "length")) then
      None
    else
      Some(Obj(map[
        "PolicyName" := Str(name),
        "PolicyDocument" := Obj(map["Version" := Str(PolicyVersion), "Statement" := statements])
      ]))
  }

  /** `{Effect: 'Allow', Action: actions, Resource: resources}`. */
  function AllowStatement(actions: seq<string>, resources: seq<Value>): Value
  {
    Obj(map["Effect" := Str("Allow"), "Action" := StrArr(actions), "Resource" := Arr(resources)])
  }

  /** The CloudFormation reference `{Ref: name}`. */
  function Ref(name: string): Value
  {
    Obj(map["Ref" := Str(name)])
  }

  /**
   * The ARN of a log-group resource of the deploying account and region,
   * deferred to deployment time as
   * `Fn::Join(':', ['arn:aws:logs', Ref AWS::Region, Ref AWS::AccountId, resource])`.
   */
  function LogsArn(resource: string): Value
  {
    Obj(map["Fn::Join" := Arr([
      Str(":"),
      Arr([Str("arn:aws:logs"), Ref("AWS::Region"), Ref("AWS::AccountId"), Str(resource)])
    ])])
  }

  // What CloudFormation makes of a deferred string at deployment time.

  /** The pseudo parameters a deployment to `region` for `account` defines. */
  function PseudoParameters(region: string, account: string): map<string, string>
  {
    map["AWS::Region" := region, "AWS::AccountId" := account]
  }

  /** A literal string, or a `Ref` to a defined parameter. */
  function ResolveAtom(v: Value, params: map<string, string>): Option<string>
  {
    match v
    case Str(s) => Some(s)
    case Obj(m) =>
      if "Ref" in m && m["Ref"].Str? && m["Ref"].s in params then Some(params[m["Ref"].s]) else None
    case _ => None
  }

  /** Every atom of `parts` resolved, in order, or None if one does not resolve. */
  function ResolveAtoms(parts: seq<Value>, params: map<string, string>): (r: Option<seq<string>>)
    ensures r.Some? ==> |r.value| == |parts|
    decreases |parts|
  {
    if parts == [] then Some([])
    else
      var head := ResolveAtom(parts[0], params);
      var tail := ResolveAtoms(parts[1..], params);
      if head.Some? && tail.Some? then Some([head.value] + tail.value) else None
  }

  /** A literal string, a `Ref`, or an `Fn::Join` of those, resolved. */
  function Resolve(v: Value, params: map<string, string>): Option<string>
  {
    match v
    case Obj(m) =>
      if "Fn::Join" in m then
        var args := m["Fn::Join"];
        if args.Arr? && |args.items| == 2 && args.items[0].Str? && args.items[1].Arr? then
          match ResolveAtoms(args.items[1].items, params)
          case Some(ss) => Some(if ss == [] then "" else Strings.Join(ss, args.items[0].s))
          case None => None
        else None
      else ResolveAtom(v, params)
    case _ => ResolveAtom(v, params)
  }

  /** Every resource of a statement resolved, in order. */
  function ResolveAll(resources: seq<Value>, params: map<string, string>): (r: Option<seq<string>>)
    ensures r.Some? ==> |r.value| == |resources|
    decreases |resources|
  {
    if resources == [] then Some([])
    else
      var head := Resolve(resources[0], params);
      var tail := ResolveAll(resources[1..], params);
      if head.Some? && tail.Some? then Some([head.value] + tail.value) else None
  }

  /** The ARNs a statement's `Resource` array names once deployed to `region` for `account`. */
  function DeployedResources(statement: Value, region: string, account: string): Option<seq<string>>
  {
    var res := Get(statement, "Resource");
    if res.Arr? then ResolveAll(res.items, PseudoParameters(region, account)) else None
  }

  /** The log group a function's invocations write to. */
  function LogGroup(functionName: string): string
  {
    "log-group:/aws/lambda/" + functionName
  }

  /** The two statements of the logging policy, in order. */
  function LoggingStatements(functionName: string): seq<Value>
  {
    [
      AllowStatement(["logs:CreateLogStream"], [LogsArn(LogGroup(functionName) + ":*")]),
      AllowStatement(["logs:PutLogEvents"], [LogsArn(LogGroup(functionName) + ":*:*")])
    ]
  }

  /**
   * The policy letting a function create log streams in its own log group
   * and put events into them (index.js:38-73): always present, named
   * "logging", and made of exactly two statements of an effect, an action
   * list and a resource list each, the first allowing CreateLogStream and
   * the second PutLogEvents. LoggingResources says
   * which ARNs they cover.
   */
  function LoggingPolicy(functionName: string): (r: Option<Value>)
    ensures r.Some?
    ensures PolicyName(r.value) == Str("logging")
    ensures PolicyVersionOf(r.value) == Str(PolicyVersion)
    ensures StatementCount(r.value) == 2
    ensures Statement(r.value, 0).Obj? && Statement(r.value, 0).fields.Keys == {"Effect", "Action", "Resource"}
    ensures Statement(r.value, 1).Obj? && Statement(r.value, 1).fields.Keys == {"Effect", "Action", "Resource"}
    ensures Get(Statement(r.value, 0), "Effect") == Str("Allow")
    ensures Get(Statement(r.value, 0), "Action") == StrArr(["logs:CreateLogStream"])
    ensures Get(Statement(r.value, 1), "Effect") == Str("Allow")
    ensures Get(Statement(r.value, 1), "Action") == StrArr(["logs:PutLogEvents"])
  {
    PolicyFromStatements("logging", Arr(LoggingStatements(functionName)))
  }

  /**
   * Once deployed to any region for any account, the logging policy's first
   * statement covers the function's log group's `:*` ARN and the second its
   * `:*:*` ARN, and nothing else.
   */
  lemma LoggingResources(functionName: string, region: string, account: string)
    ensures DeployedResources(Statement(LoggingPolicy(functionName).value, 0), region, account)
      == Some(["arn:aws:logs:" + region + ":" + account + ":" + LogGroup(functionName) + ":*"])
    ensures DeployedResources(Statement(LoggingPolicy(functionName).value, 1), region, account)
      == Some(["arn:aws:logs:" + region + ":" + account + ":" + LogGroup(functionName) + ":*:*"])
  {
    var statements := LoggingStatements(functionName);
    assert Statement(LoggingPolicy(functionName).value, 0) == statements[0];
    assert Statement(LoggingPolicy(functionName).value, 1) == statements[1];
    var prefix := "arn:aws:logs:" + region + ":" + account + ":";
    LogsArnResolves(LogGroup(functionName) + ":*", region, account);
    LogsArnResolves(LogGroup(functionName) + ":*:*", region, account);
    assert Get(statements[0], "Resource") == Arr([LogsArn(LogGroup(functionName) + ":*")]);
    assert Get(statements[1], "Resource") == Arr([LogsArn(LogGroup(functionName) + ":*:*")]);
    assert prefix + (LogGroup(functionName) + ":*") == prefix + LogGroup(functionName) + ":*";
    assert prefix + (LogGroup(functionName) + ":*:*") == prefix + LogGroup(functionName) + ":*:*";
  }

  /** The four parts of a deferred log-group ARN resolve to literal strings. */
  lemma LogsArnAtoms(resource: string, region: string, account: string)
    ensures ResolveAtoms([Str("arn:aws:logs"), Ref("AWS::Region"), Ref("AWS::AccountId"), Str(resource)],
                         PseudoParameters(region, account))
      == Some(["arn:aws:logs", region, account, resource])
  {
    var params := PseudoParameters(region, account);
    var parts := [Str("arn:aws:logs"), Ref("AWS::Region"), Ref("AWS::AccountId"), Str(resource)];
    assert ResolveAtom(Ref("AWS::Region"), params) == Some(region);
    assert ResolveAtom(Ref("AWS::AccountId"), params) == Some(account);
    assert parts[3..][1..] == [];
    assert parts[2..][1..] == parts[3..];
    assert parts[1..][1..] == parts[2..];
    assert ResolveAtoms([], params) == Some([]);
    assert [resource] + [] == [resource];
    assert ResolveAtoms(parts[3..], params) == Some([resource]);
    assert [account] + [resource] == [account, resource];
    assert [region] + [account, resource] == [region, account, resource];
    assert ["arn:aws:logs"] + [region, account, resource] == ["arn:aws:logs", region, account, resource];
    assert parts[2..][0] == Ref("AWS::AccountId") && parts[1..][0] == Ref("AWS::Region");
    assert ResolveAtoms(parts[2..], params) == Some([account, resource]);
    assert ResolveAtoms(parts[1..], params) == Some([region, account, resource]);
  }

  /** Joining the four parts of a log-group ARN with colons. */
  lemma JoinArnParts(region: string, account: string, resource: string)
    ensures Strings.Join(["arn:aws:logs", region, account, resource], ":")
      == "arn:aws:logs:" + region + ":" + account + ":" + resource
  {
    var ss := ["arn:aws:logs", region, account, resource];
    assert ss[3..][1..] == [] && ss[2..][1..] == ss[3..] && ss[1..][1..] == ss[2..];
    assert Strings.Join(ss[3..], ":") == resource;
    assert Strings.Join(ss[2..], ":") == account + ":" + resource;
    assert Strings.Join(ss[1..], ":") == region + ":" + account + ":" + resource;
  }

  /** A deferred log-group ARN resolves to the account's and region's literal ARN. */
  lemma LogsArnResolves(resource: string, region: string, account: string)
    ensures ResolveAll([LogsArn(resource)], PseudoParameters(region, account))
      == Some(["arn:aws:logs:" + region + ":" + account + ":" + resource])
  {
    var params := PseudoParameters(region, account);
    LogsArnAtoms(resource, region, account);
    JoinArnParts(region, account, resource);
    assert Resolve(LogsArn(resource), params) == Some(Strings.Join(["arn:aws:logs", region, account, resource], ":"));
    var arn := "arn:aws:logs:" + region + ":" + account + ":" + resource;
    assert ResolveAll([], params) == Some([]);
    assert [arn] + [] == [arn];
  }
}
