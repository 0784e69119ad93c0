# A model of serverless-plugin-custom-roles

serverless-plugin-custom-roles is a Serverless Framework plugin. Just before
packaging, it gives every function of a service an IAM execution role of its
own, in place of the framework's one shared role. Each role holds a few inline
policies, in this order:

- a "logging" policy that lets the function write to its own CloudWatch Logs
  log group;
- a "shared" policy made from the provider's `iamRoleStatements`;
- a "custom" policy made from the function's own `iamRoleStatements`;
- a "streams" policy that lets the function read the DynamoDB and Kinesis
  streams its events name.

The role is stored in the CloudFormation template under the function's logical
id followed by `Role`, and the function is pointed at that key.

This project models that synthesis as pure functions. The configuration and the
template are `Json.Value` trees: `Null` stands for both `null` and
`undefined`, and JavaScript truthiness is written out. Every throw of the
JavaScript becomes a `Failure` of a `Result`. Every line the plugin logs
becomes a `Diagnostics.Warning`, returned next to the result.

The modules are:

- `Json` holds the value tree.
- `Strings` holds `split` and `join`.
- `Policies` holds the policy builder and the logging policy. It also says what
  CloudFormation makes of the policy's deferred ARNs at deployment time.
- `Streams` holds the streams policy and the reduce over events.
- `Roles` holds the role, the role key and `createRoles`. Next to each
  operation it gives a reference definition: the roles written key by key, the
  warnings in order, and the functions as assigned.
- `StreamFacts` and `RoleFacts` hold the lemmas that relate several calls.

`getLambdaLogicalId` belongs to the host framework, so it is a parameter: the
function `logicalId`. The host's function list is an ordered sequence of names
and a map from names to function objects. `Roles.WellFormed` states what the
host guarantees about them:

- no name is listed twice;
- every listed name has a function object;
- every function object carries its string display `name`.

## Model

| member | source | states |
|---|---|---|
| Policies.PolicyFromStatements | index.js:24-36 | The policy is absent exactly when the statements are falsy or have a falsy `length`. For an array, that means exactly when it is empty. A present policy carries the given name, the 2012-10-17 version and the statements unchanged. It has exactly the keys `PolicyName` and `PolicyDocument`, and its document exactly `Version` and `Statement`. |
| Policies.LoggingPolicy | index.js:38-73 | The logging policy is always present and named "logging". It has exactly two Allow statements: first `logs:CreateLogStream`, then `logs:PutLogEvents`. Each statement has exactly the keys `Effect`, `Action` and `Resource`. |
| Policies.LoggingResources | index.js:43-53 | Once deployed to any region and account, the first logging statement covers only `arn:aws:logs:<region>:<account>:log-group:/aws/lambda/<name>:*`. The second covers only the same ARN followed by `:*:*`. |
| Policies.LogsArnResolves | index.js:44-52 | The `Fn::Join` of 'arn:aws:logs', the region Ref, the account Ref and a resource resolves to the literal colon-joined ARN. |
| Diagnostics.LogLine | index.js:20-22 | A logged line is exactly `[serverless-plugin-custom-roles]: ` followed by the message. |
| Diagnostics.ParseMessage | index.js:93 | Reading a warning's text back gives the warning: the function's name and the kind of misconfiguration can be recovered. |
| Diagnostics.MessageInjective | index.js:103 | Two warnings have the same text if and only if they are the same warning. |
| Streams.KindOf | index.js:97-104 | A stream type selects a service exactly when it is the string "dynamodb" or "kinesis", compared strictly. The service it selects is the one of that name. |
| Streams.ClassifyEvent | index.js:81-106 | One event: a null entry throws. An entry is skipped exactly when its `stream` is falsy. A stream without a truthy reference (the string itself, or the object's `arn`) gives the source warning, and exactly then. With a reference, the type is the truthy declared `type`, or else the reference's third `:`-piece; an untyped reference that is not a string throws, and only that case throws. A type of "dynamodb" or "kinesis" accepts the reference for that service; any other type, a missing third piece included, gives the type warning. |
| Streams.Collect | index.js:80-107 | The reduce throws exactly when some event throws. Otherwise each bucket is extended by exactly the references routed to it, and the warnings by the rejections, all in event order. |
| Streams.StreamsPolicy | index.js:75-136 | Falsy `events` give no policy and no warning. Truthy events that are not an array throw. An array throws exactly when some event throws. Otherwise the warnings are the events' complaints in order, and the "streams" policy is absent exactly when no reference was routed. |
| Streams.StreamStatementsShape | index.js:109-133 | A non-empty bucket gives one Allow statement of the service's four stream actions over exactly that bucket, the DynamoDB one first. Each statement has exactly the keys `Effect`, `Action` and `Resource`. There are no other statements. |
| Streams.StreamsPolicyShape | index.js:109-135 | A present streams policy has one statement per service that routed a reference, DynamoDB first. Each statement grants that service's four read actions over exactly that service's references. It has exactly the keys `Effect`, `Action` and `Resource`. |
| StreamFacts.RoutedAppend | index.js:80-107 | The references routed from two event lists placed one after the other are those of the first list followed by those of the second. |
| StreamFacts.WarnedAppend | index.js:80-107 | The warnings of two event lists placed one after the other are those of the first list followed by those of the second. |
| StreamFacts.ReadableAppend | index.js:80-107 | Two event lists placed one after the other are readable exactly when both are. |
| StreamFacts.SkippedEventRoutesNothing | index.js:81-83 | Inserting a skipped event anywhere leaves both buckets unchanged. |
| StreamFacts.SkippedEventWarnsNothing | index.js:81-83 | Inserting a skipped event anywhere leaves the warnings unchanged. |
| StreamFacts.SkippedEventThrowsNothing | index.js:81-83 | Inserting a skipped event anywhere leaves the list readable exactly when it was before. |
| StreamFacts.NonStreamEventIsSilent | index.js:80-83 | Inserting a non-stream event into a function's events changes neither its streams policy nor its warnings. |
| StreamFacts.NoStreamEventsNoPolicy | index.js:76-83 | A function none of whose events has a truthy `stream` gets no streams policy and logs nothing. |
| StreamFacts.EveryEventAccountedFor | index.js:80-107 | In a readable event list, the routed references, the warnings and the skipped events add up to the number of events. |
| StreamFacts.RoutedProvenance | index.js:80-107 | A value is in a bucket if and only if some event was accepted for that service with that value as its reference. |
| StreamFacts.WarningsNameTheFunction | index.js:93 | Every warning a function's events give is the source warning or the type warning, and it names that function. |
| StreamFacts.BareArnRoutedByService | index.js:86-87 | A bare colon-separated ARN given as the stream is its own reference, and its third piece alone selects the service. |
| StreamFacts.RoutedByServicePiece | index.js:97-104 | A non-empty string stream whose third piece is a service name is accepted for that service with the string as its reference. Any other third piece gives the type warning. |
| StreamFacts.ServiceOfArn | index.js:97 | The third piece of colon-joined, colon-free parts is the third part. |
| StreamFacts.DeclaredTypeUsedVerbatim | index.js:88-89 | For any stream object with a truthy declared `type` and a truthy `arn`, whatever other keys it has, the declared type alone selects the service, and the reference is the `arn` unchanged, whatever its type. |
| StreamFacts.UntypedObjectRoutedByArn | index.js:88-104 | For any stream object without a truthy `type` whose `arn` is a non-empty string, the `arn`'s third piece selects the service, and a missing or unknown piece gives the type warning. |
| StreamFacts.UntypedDeferredArnThrows | index.js:97 | A stream object without a truthy `type` whose truthy `arn` is not a string throws. |
| StreamFacts.ShortReferenceHasNoType | index.js:97-103 | A non-empty string stream with fewer than three `:`-pieces gives the type warning. |
| StreamFacts.BothServicesTwoStatements | index.js:109-135 | One DynamoDB and one Kinesis stream, each with a declared type, give no warning and a streams policy of exactly two statements. The DynamoDB statement comes first. Each covers only its own reference and has exactly the keys `Effect`, `Action` and `Resource`. |
| Strings.JoinSplit | index.js:97 | Joining the pieces `split` gives, with the same separator, restores the string. |
| Strings.SplitJoin | index.js:97 | Splitting a join of separator-free pieces gives back the pieces. |
| Roles.Role | index.js:138-155 | The role resource has exactly the keys `Type` and `Properties` and is an `AWS::IAM::Role`. Its trust document holds only the version and one statement, and that statement has exactly `Effect` Allow, `Action` `sts:AssumeRole` and a `Principal` naming the service `lambda.amazonaws.com` and nothing else. Its only other property is `Policies`: the given policies, in order. |
| Roles.TrustIsFixed | index.js:142-151 | Any trust document that lets only Lambda assume the role, in that exact sense, is the fixed trust document key for key. |
| Roles.RoleId | index.js:157-160 | A role key is the function's logical id followed by "Role". |
| Roles.RoleIdInjective | index.js:159 | Two functions share a role key if and only if they share a logical id. |
| Roles.FunctionRole | index.js:174-193 | A function's role throws exactly when its streams policy throws. Otherwise it is a Lambda role whose policies are, in order: the logging policy of the function's display name, the shared policy, the custom policy and the streams policy. Each of the last three appears only when present. Its warnings are exactly its streams' warnings. |
| Roles.PolicyOrder | index.js:178-191 | The policy names of such a list are "logging", then "shared", "custom" and "streams" for those present, in that order. |
| Roles.RolePolicyOrder | index.js:178-191 | A function's role names its policies "logging", then "shared", "custom" and "streams" for those present, in that order. |
| Roles.SharedPolicy | index.js:170-171 | The shared policy exists exactly when the provider's statements are truthy with a truthy length. It is named "shared" and carries those statements. A provider without statements has none. |
| Roles.PutResource | index.js:196 | Writing a role into the template binds its key in the resource table, creating the missing sections. Every other key and every other section is left as it was. |
| Roles.ApplyLast | index.js:196 | After a sequence of writes, a key holds the value of the last write to it. |
| Roles.AddRoles | index.js:174-197 | The loop over functions completes exactly when every function's role builds. The functions are then pointed at their role keys, and the roles are laid over the resource table with a later function winning a shared key. The other sections are untouched, and the warnings are the functions' warnings in order. |
| Roles.CreateRoles | index.js:162-198 | Without functions, createRoles logs "No functions to add roles to" and changes nothing. Otherwise it completes exactly when every role builds, and it then changes only the functions and the resources, as AddRoles states. |
| Roles.BuildsIffStreams | index.js:174-193 | Every role builds exactly when every listed function's streams policy builds. |
| Roles.TableFacts | index.js:196 | After every role is written, the table's keys are the old keys plus the role keys, and every other key keeps its resource. What each role key holds is a Lambda role. |
| Roles.WrittenKeys | index.js:176 | The roles are written under exactly the listed functions' role keys. |
| Roles.WrittenRoles | index.js:174-196 | Every written role is the role of the last listed function with that key. |
| RoleFacts.CreateRolesThrows | index.js:162-198 | For a service with functions, createRoles completes if and only if every function's streams policy completes. |
| RoleFacts.CreateRolesFunctions | index.js:174-195 | After createRoles, every listed function points at its own role key, and nothing else about it changes. Unlisted functions, the provider and the function list are untouched. |
| RoleFacts.CreateRolesTable | index.js:193-196 | After createRoles, the resource table holds the old keys plus exactly the role keys. Every other resource is unchanged, every role key holds a Lambda role, and the other template sections are unchanged. |
| RoleFacts.CreateRolesIdempotent | index.js:162-198 | Running createRoles again on its own output completes, and returns the same service and the same warnings. |
| RoleFacts.RoleUnderKey | index.js:176-196 | The role under a role key is the role of the last listed function with that key. A function whose logical id collides with a later function's loses its role. |
| RoleFacts.RoleUnderOwnKey | index.js:174-196 | When logical ids are distinct, each function's role builds and is stored under its own key. |
| RoleFacts.RoleOfEachFunction | index.js:174-196 | When logical ids are distinct, each function's key holds a Lambda role. Its policies are the logging, shared, custom and streams policies in order, and they are named in that order. |
| RoleFacts.ConfigDeterminesRole | index.js:175-193 | A function's role depends only on its display name, its `iamRoleStatements` and its `events`. |
| RoleFacts.ConfigFrameWritten | index.js:174-196 | The roles written depend only on those fields of the listed functions. |
| RoleFacts.RunWarningsNameListed | index.js:93 | Every warning of a run is a stream warning naming a listed function. |
| RoleFacts.BareServiceQuiet | index.js:174-197 | A service whose one function declares nothing is processed without a throw and without a warning. |
| RoleFacts.BareServiceTable | index.js:195-196 | createRoles completes on a service whose one function declares only its display name. That function points at its role key, and the resource table holds that key alone. |
| RoleFacts.BareServiceRole | index.js:178-193 | createRoles completes on a service whose one function declares only its display name. That role holds the function's logging policy alone. |

## Left out

- The constructor's check for framework version 1.12 or later, and the hook
  registration, are left out (index.js:7-18). They concern the host, not the
  synthesis.
- Printing through `serverless.cli.log` is left out. `Diagnostics.LogLine`
  gives the line's text, and the warnings are returned rather than printed.
- `getStackName` is left out (index.js:172). `getRole` never reads its result.
- `getLambdaLogicalId` is the parameter `logicalId`. Its naming rules belong
  to the framework.
- Roles.PutResource models `lodash.set` on the one path it is given here. If
  `resources` or `resources.Resources` is not an object, it is replaced by an
  object. Dotted role keys and array-valued sections are not modelled.
- Roles.CreateRoles: when a function's role throws, the model returns the
  `Failure` only. The warnings already logged and the earlier functions'
  writes are not kept. The host aborts packaging on the throw.
- JavaScript numbers are integers here. Fractions and NaN do not occur in the
  configuration the plugin reads.
- The contents of user-supplied IAM statements are not interpreted. They are
  copied into the policies unchanged.
- Roles.WellFormed is assumed of every service, as the host guarantees: names
  are distinct, every listed function exists, and every function carries its
  string `name`. The model does not cover a host that breaks this.
- `index.js` attaches no VPC access policy and no permissions boundary to a
  role. It reads only the flat `provider.iamRoleStatements`, and it always
  overwrites a function's `role` and the role resource under its key. The
  model does the same.
- The repository's tests expect two things `index.js` does not do: a VPC
  managed policy on the role of a function or provider with a `vpc` section
  (test/index-tests.js:607-681), and registration of a configuration schema
  with the framework (test/index-tests.js:88-98). Neither is modelled.
