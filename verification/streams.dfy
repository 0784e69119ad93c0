/**
 * The stream-access policy of one function (index.js:75-136): each stream
 * event is classified into a DynamoDB bucket or a Kinesis bucket, malformed
 * ones are dropped with a warning, and each non-empty bucket becomes one
 * statement.
 */
module Streams {
  import opened Wrappers
  import opened Json
  import opened Policies
  import opened Diagnostics
  import Strings
  import Seqs

  /** The two stream services a function can read from. */
  datatype Kind = DynamoDb | Kinesis

  /** What one entry of a function's `events` contributes. */
  datatype Route =
    | Skip                              // not a stream event: contributes nothing
    | Accept(kind: Kind, ref: Value)    // a stream reference for the bucket of `kind`
    | Reject(warning: Warning)          // a malformed stream event, dropped with a warning

  /** The TypeErrors the JavaScript throws while reading a function's events. */
  datatype Error =
    | EventsNotArray       // `events.reduce` on a truthy value that is not an array (index.js:80)
    | EventIsNullish       // `event.stream` on a null or undefined entry (index.js:81)
    | ReferenceNotString   // `eventSourceArn.split` on a reference that is not a string (index.js:97)

  /** The name a stream type must have to select a service. */
  function KindName(k: Kind): string
  {
    match k
    case DynamoDb => "dynamodb"
    case Kinesis => "kinesis"
  }

  /**
   * The service a resolved stream type selects: only the strings "dynamodb"
   * and "kinesis" do, compared strictly (index.js:98-104).
   */
  function KindOf(t: Value): (k: Option<Kind>)
    ensures k.Some? <==> t == Str("dynamodb") || t == Str("kinesis")
    ensures k.Some? ==> t == Str(KindName(k.value))
  {
    if t == Str("dynamodb") then Some(DynamoDb)
    else if t == Str("kinesis") then Some(Kinesis)
    else None
  }

  /** The third `:`-separated piece of a string, `undefined` when it has fewer. */
  function ArnService(arn: string): Value
  {
    var pieces := Strings.Split(arn, ':');
    if |pieces| > 2 then Str(pieces[2]) else Null
  }

  /**
   * The event source reference of a truthy stream configuration
   * (index.js:85-90): the string itself, or the truthy `arn` of an object;
   * `undefined` otherwise.
   */
  function Reference(stream: Value): Value
  {
    if stream.Str? then stream
    else if IsObject(stream) && Truthy(Get(stream, "arn")) then Get(stream, "arn")
    else Null
  }

  /**
   * What one entry of `events` contributes (index.js:81-106). A falsy
   * `stream` is skipped; a stream without a truthy reference is rejected
   * with a source warning; the type is the truthy declared `type`, or else
   * the third piece of the reference, which throws when the reference is not
   * a string; a type other than "dynamodb" or "kinesis" is rejected with a
   * type warning.
   */
  function ClassifyEvent(functionName: string, event: Value): (r: Result<Route, Error>)
    ensures event.Null? ==> r == Failure(EventIsNullish)
    ensures !event.Null? && !Truthy(Get(event, "stream")) ==> r == Success(Skip)
    ensures r.Success? && r.value.Accept? ==>
      var stream := Get(event, "stream");
      && Truthy(r.value.ref)
      && (r.value.ref == stream || r.value.ref == Get(stream, "arn"))
      && (stream.Str? ==> r.value.ref == stream)
      && (if Truthy(Get(stream, "type")) then Get(stream, "type") == Str(KindName(r.value.kind))
          else r.value.ref.Str? && ArnService(r.value.ref.s) == Str(KindName(r.value.kind)))
    ensures r.Success? && r.value.Reject? ==>
      r.value.warning in {SourceNotConfigured(functionName), TypeNotConfigured(functionName)}
    ensures r == Success(Reject(SourceNotConfigured(functionName))) <==>
      !event.Null? && Truthy(Get(event, "stream")) && !Truthy(Reference(Get(event, "stream")))
    ensures r.Failure? && !event.Null? ==>
      r.error == ReferenceNotString && !Truthy(Get(Get(event, "stream"), "type"))
    ensures r == Success(Skip) ==> !event.Null? && !Truthy(Get(event, "stream"))
    ensures !event.Null? && Truthy(Get(event, "stream")) && Truthy(Reference(Get(event, "stream"))) ==>
      var stream := Get(event, "stream");
      var ref := Reference(stream);
      var declared := Get(stream, "type");
      if !Truthy(declared) && !ref.Str? then r == Failure(ReferenceNotString)
      else
        var t := if Truthy(declared) then declared else ArnService(ref.s);
        r == Success(if KindOf(t).Some? then Accept(KindOf(t).value, ref) else Reject(TypeNotConfigured(functionName)))
  {
    if event.Null? then Failure(EventIsNullish)
    else
      var stream := Get(event, "stream");
      if !Truthy(stream) then Success(Skip)
      else
        var ref := Reference(stream);
        if !Truthy(ref) then Success(Reject(SourceNotConfigured(functionName)))
        else
          var declared := Get(stream, "type");
          if !Truthy(declared) && !ref.Str? then Failure(ReferenceNotString)
          else
            var streamType := if Truthy(declared) then declared else ArnService(ref.s);
            match KindOf(streamType)
            case Some(k) => Success(Accept(k, ref))
            case None => Success(Reject(TypeNotConfigured(functionName)))
  }

  // Reference definitions of the two buckets and the warnings, event by event.

  /** Whether no entry of `events` throws. */
  predicate Readable(functionName: string, events: seq<Value>)
  {
    forall i :: 0 <= i < |events| ==> ClassifyEvent(functionName, events[i]).Success?
  }

  /** The reference an entry's route adds to the bucket of `kind`, if any. */
  function Contribution(r: Result<Route, Error>, kind: Kind): seq<Value>
  {
    if r.Success? && r.value.Accept? && r.value.kind == kind then [r.value.ref] else []
  }

  /** The warning an entry's route logs, if any. */
  function Complaint(r: Result<Route, Error>): seq<Warning>
  {
    if r.Success? && r.value.Reject? then [r.value.warning] else []
  }

  /** The references of the entries accepted for `kind`, in event order. */
  function Routed(functionName: string, events: seq<Value>, kind: Kind): seq<Value>
    decreases |events|
  {
    if events == [] then []
    else Contribution(ClassifyEvent(functionName, events[0]), kind) + Routed(functionName, events[1..], kind)
  }

  /** The warnings of the rejected entries, in event order. */
  function Warned(functionName: string, events: seq<Value>): seq<Warning>
    decreases |events|
  {
    if events == [] then []
    else Complaint(ClassifyEvent(functionName, events[0])) + Warned(functionName, events[1..])
  }

  /** The number of entries that are not stream events. */
  function Skipped(functionName: string, events: seq<Value>): nat
    decreases |events|
  {
    if events == [] then 0
    else
      (if ClassifyEvent(functionName, events[0]) == Success(Skip) then 1 else 0)
        + Skipped(functionName, events[1..])
  }

  /** Whether no entry of `events` throws, read off the first entry and the rest. */
  lemma ReadableSplit(functionName: string, events: seq<Value>)
    requires events != []
    ensures Readable(functionName, events) <==>
      ClassifyEvent(functionName, events[0]).Success? && Readable(functionName, events[1..])
  {
    if ClassifyEvent(functionName, events[0]).Success? && Readable(functionName, events[1..]) {
      forall i | 0 <= i < |events|
        ensures ClassifyEvent(functionName, events[i]).Success?
      {
        if i > 0 { assert events[i] == events[1..][i - 1]; }
      }
    }
    if Readable(functionName, events) {
      forall i | 0 <= i < |events| - 1
        ensures ClassifyEvent(functionName, events[1..][i]).Success?
      {
        assert events[1..][i] == events[i + 1];
      }
    }
  }

  /** The accumulator of the reduce at index.js:80-107, with the warnings logged so far. */
  datatype Buckets = Buckets(dynamodb: seq<Value>, kinesis: seq<Value>, warnings: seq<Warning>)

  /** One entry's route added to the accumulator: it grows one bucket, or the warnings, or nothing. */
  function Step(acc: Buckets, route: Route): (next: Buckets)
    ensures next == Buckets(
      acc.dynamodb + Contribution(Success(route), DynamoDb),
      acc.kinesis + Contribution(Success(route), Kinesis),
      acc.warnings + Complaint(Success(route)))
  {
    match route
    case Skip => acc
    case Accept(DynamoDb, ref) => acc.(dynamodb := acc.dynamodb + [ref])
    case Accept(Kinesis, ref) => acc.(kinesis := acc.kinesis + [ref])
    case Reject(w) => acc.(warnings := acc.warnings + [w])
  }

  /**
   * The reduce over the entries left to right (index.js:80-107): it throws
   * exactly when some entry throws, and otherwise extends each bucket with
   * the references accepted for it and the warnings with the rejections, all
   * in event order.
   */
  function Collect(functionName: string, events: seq<Value>, acc: Buckets): (r: Result<Buckets, Error>)
    ensures r.Success? <==> Readable(functionName, events)
    ensures r.Success? ==> r.value == Buckets(
      acc.dynamodb + Routed(functionName, events, DynamoDb),
      acc.kinesis + Routed(functionName, events, Kinesis),
      acc.warnings + Warned(functionName, events))
    decreases |events|
  {
    if events == [] then Success(acc)
    else
      var first := ClassifyEvent(functionName, events[0]);
      ReadableSplit(functionName, events);
      match first
      case Failure(e) => Failure(e)
      case Success(route) =>
        var next := Step(acc, route);
        Seqs.Associate(acc.dynamodb, Contribution(first, DynamoDb), Routed(functionName, events[1..], DynamoDb));
        Seqs.Associate(acc.kinesis, Contribution(first, Kinesis), Routed(functionName, events[1..], Kinesis));
        Seqs.Associate(acc.warnings, Complaint(first), Warned(functionName, events[1..]));
        Collect(functionName, events[1..], next)
  }

  /** The four stream-reading actions a stream statement grants on `kind` (index.js:113-118, 125-130). */
  function StreamActions(k: Kind): seq<string>
  {
    match k
    case DynamoDb =>
      ["dynamodb:GetRecords", "dynamodb:GetShardIterator", "dynamodb:DescribeStream", "dynamodb:ListStreams"]
    case Kinesis =>
      ["kinesis:GetRecords", "kinesis:GetShardIterator", "kinesis:DescribeStream", "kinesis:ListStreams"]
  }

  /** Whether `statement` allows `actions` on exactly `resources`, and says nothing else. */
  predicate Grants(statement: Value, actions: seq<string>, resources: seq<Value>)
  {
    && statement.Obj? && statement.fields.Keys == {"Effect", "Action", "Resource"}
    && Get(statement, "Effect") == Str("Allow")
    && Get(statement, "Action") == StrArr(actions)
    && Get(statement, "Resource") == Arr(resources)
  }

  /** One statement per non-empty bucket, DynamoDB first (index.js:109-133). */
  function StreamStatements(dynamodb: seq<Value>, kinesis: seq<Value>): seq<Value>
  {
    (if dynamodb != [] then [AllowStatement(StreamActions(DynamoDb), dynamodb)] else [])
    + (if kinesis != [] then [AllowStatement(StreamActions(Kinesis), kinesis)] else [])
  }

  /** The entries of a function's `events` configuration. */
  function Events(functionObj: map<string, Value>): Value
  {
    Lookup(functionObj, "events")
  }

  /**
   * The "streams" policy of a function with the warnings logged while
   * building it (index.js:75-136). A function without truthy `events` gets
   * none and no warning; non-array events and unreadable events throw;
   * otherwise the warnings are the events' complaints in order and the
   * policy, named "streams", is absent exactly when no event routed a
   * reference. StreamsPolicyShape says what its statements grant.
   */
  function StreamsPolicy(functionName: string, functionObj: map<string, Value>): (r: Result<(Option<Value>, seq<Warning>), Error>)
    ensures !Truthy(Events(functionObj)) ==> r == Success((None, []))
    ensures Truthy(Events(functionObj)) && !Events(functionObj).Arr? ==> r == Failure(EventsNotArray)
    ensures Events(functionObj).Arr? ==> (r.Success? <==> Readable(functionName, Events(functionObj).items))
    ensures r.Success? && Events(functionObj).Arr? ==>
      var events := Events(functionObj).items;
      && r.value.1 == Warned(functionName, events)
      && (r.value.0.None? <==> Routed(functionName, events, DynamoDb) == [] && Routed(functionName, events, Kinesis) == [])
    ensures r.Success? && r.value.0.Some? ==> PolicyName(r.value.0.value) == Str("streams")
  {
    var events := Events(functionObj);
    if !Truthy(events) then Success((None, []))
    else if !events.Arr? then Failure(EventsNotArray)
    else
      match Collect(functionName, events.items, Buckets([], [], []))
      case Failure(e) => Failure(e)
      case Success(b) =>
        Success((PolicyFromStatements("streams", Arr(StreamStatements(b.dynamodb, b.kinesis))), b.warnings))
  }

  /** The statements built from the two buckets, read as a policy document. */
  lemma StreamStatementsShape(dynamodb: seq<Value>, kinesis: seq<Value>)
    requires dynamodb != [] || kinesis != []
    ensures var p := PolicyFromStatements("streams", Arr(StreamStatements(dynamodb, kinesis)));
      && p.Some?
      && PolicyVersionOf(p.value) == Str(PolicyVersion)
      && StatementCount(p.value) == (if dynamodb != [] then 1 else 0) + (if kinesis != [] then 1 else 0)
      && (dynamodb != [] ==> Grants(Statement(p.value, 0), StreamActions(DynamoDb), dynamodb))
      && (kinesis != [] ==> Grants(Statement(p.value, if dynamodb != [] then 1 else 0), StreamActions(Kinesis), kinesis))
  {
  }

  /**
   * A present streams policy has a DynamoDB statement over the DynamoDB
   * references when there are any, followed by a Kinesis statement over the
   * Kinesis references when there are any, and nothing else.
   */
  lemma StreamsPolicyShape(functionName: string, functionObj: map<string, Value>)
    requires StreamsPolicy(functionName, functionObj).Success?
    requires StreamsPolicy(functionName, functionObj).value.0.Some?
    ensures Events(functionObj).Arr?
    ensures var p := StreamsPolicy(functionName, functionObj).value.0.value;
      var events := Events(functionObj).items;
      var dynamodb := Routed(functionName, events, DynamoDb);
      var kinesis := Routed(functionName, events, Kinesis);
      && PolicyVersionOf(p) == Str(PolicyVersion)
      && StatementCount(p) == (if dynamodb != [] then 1 else 0) + (if kinesis != [] then 1 else 0)
      && (dynamodb != [] ==> Grants(Statement(p, 0), StreamActions(DynamoDb), dynamodb))
      && (kinesis != [] ==> Grants(Statement(p, if dynamodb != [] then 1 else 0), StreamActions(Kinesis), kinesis))
  {
    var events := Events(functionObj).items;
    var dynamodb := Routed(functionName, events, DynamoDb);
    var kinesis := Routed(functionName, events, Kinesis);
    var b := Collect(functionName, events, Buckets([], [], [])).value;
    assert b.dynamodb == [] + dynamodb == dynamodb;
    assert b.kinesis == [] + kinesis == kinesis;
    assert StreamsPolicy(functionName, functionObj).value.0
      == PolicyFromStatements("streams", Arr(StreamStatements(dynamodb, kinesis)));
    StreamStatementsShape(dynamodb, kinesis);
  }
}
