/** Properties of stream classification that relate several events or calls. */
module StreamFacts {
  import opened Wrappers
  import opened Json
  import opened Policies
  import opened Diagnostics
  import opened Streams
  import Strings
  import Seqs

  lemma {:induction false} RoutedAppend(functionName: string, a: seq<Value>, b: seq<Value>, kind: Kind)
    ensures Routed(functionName, a + b, kind) == Routed(functionName, a, kind) + Routed(functionName, b, kind)
    decreases |a|
  {
    if a == [] {
      assert a + b == b;
    } else {
      RoutedAppend(functionName, a[1..], b, kind);
      Seqs.HeadOfConcat(a, b);
      var c := Contribution(ClassifyEvent(functionName, a[0]), kind);
      assert Routed(functionName, a + b, kind) == c + Routed(functionName, a[1..] + b, kind);
      assert Routed(functionName, a, kind) == c + Routed(functionName, a[1..], kind);
      Seqs.Associate(c, Routed(functionName, a[1..], kind), Routed(functionName, b, kind));
    }
  }

  lemma {:induction false} WarnedAppend(functionName: string, a: seq<Value>, b: seq<Value>)
    ensures Warned(functionName, a + b) == Warned(functionName, a) + Warned(functionName, b)
    decreases |a|
  {
    if a == [] {
      assert a + b == b;
    } else {
      WarnedAppend(functionName, a[1..], b);
      Seqs.HeadOfConcat(a, b);
      var c := Complaint(ClassifyEvent(functionName, a[0]));
      assert Warned(functionName, a + b) == c + Warned(functionName, a[1..] + b);
      assert Warned(functionName, a) == c + Warned(functionName, a[1..]);
      Seqs.Associate(c, Warned(functionName, a[1..]), Warned(functionName, b));
    }
  }

  lemma ReadableAppend(functionName: string, a: seq<Value>, b: seq<Value>)
    ensures Readable(functionName, a + b) <==> Readable(functionName, a) && Readable(functionName, b)
  {
    if Readable(functionName, a) && Readable(functionName, b) {
      forall i | 0 <= i < |a + b|
        ensures ClassifyEvent(functionName, (a + b)[i]).Success?
      {
        if i >= |a| { assert (a + b)[i] == b[i - |a|]; }
      }
    }
    if Readable(functionName, a + b) {
      forall i | 0 <= i < |b|
        ensures ClassifyEvent(functionName, b[i]).Success?
      {
        assert (a + b)[|a| + i] == b[i];
      }
      forall i | 0 <= i < |a|
        ensures ClassifyEvent(functionName, a[i]).Success?
      {
        assert (a + b)[i] == a[i];
      }
    }
  }

  /** `functionObj` with its `events` replaced. */
  function WithEvents(functionObj: map<string, Value>, events: seq<Value>): map<string, Value>
  {
    functionObj["events" := Arr(events)]
  }

  lemma SkippedEventRoutesNothing(functionName: string, before: seq<Value>, event: Value, after: seq<Value>, kind: Kind)
    requires ClassifyEvent(functionName, event) == Success(Skip)
    ensures Routed(functionName, before + [event] + after, kind) == Routed(functionName, before + after, kind)
  {
    assert [event][1..] == [];
    assert Contribution(ClassifyEvent(functionName, event), kind) == [];
    assert Routed(functionName, [event], kind) == [] + Routed(functionName, [], kind) == [];
    RoutedAppend(functionName, before, [event], kind);
    var head := Routed(functionName, before, kind);
    assert Routed(functionName, before + [event], kind) == head + [] == head;
    RoutedAppend(functionName, before + [event], after, kind);
    RoutedAppend(functionName, before, after, kind);
  }

  lemma SkippedEventWarnsNothing(functionName: string, before: seq<Value>, event: Value, after: seq<Value>)
    requires ClassifyEvent(functionName, event) == Success(Skip)
    ensures Warned(functionName, before + [event] + after) == Warned(functionName, before + after)
  {
    assert [event][1..] == [];
    assert Warned(functionName, [event]) == [];
    WarnedAppend(functionName, before, [event]);
    WarnedAppend(functionName, before + [event], after);
    WarnedAppend(functionName, before, after);
  }

  lemma SkippedEventThrowsNothing(functionName: string, before: seq<Value>, event: Value, after: seq<Value>)
    requires ClassifyEvent(functionName, event) == Success(Skip)
    ensures Readable(functionName, before + [event] + after) <==> Readable(functionName, before + after)
  {
    assert Readable(functionName, [event]);
    ReadableAppend(functionName, before, [event]);
    ReadableAppend(functionName, before + [event], after);
    ReadableAppend(functionName, before, after);
  }

  /**
   * Entries that are not stream events are skipped silently (index.js:81-83):
   * inserting one anywhere in a function's events changes neither its
   * streams policy nor its warnings.
   */
  lemma NonStreamEventIsSilent(functionName: string, functionObj: map<string, Value>,
                               before: seq<Value>, event: Value, after: seq<Value>)
    requires ClassifyEvent(functionName, event) == Success(Skip)
    ensures var r1 := StreamsPolicy(functionName, WithEvents(functionObj, before + [event] + after));
            var r2 := StreamsPolicy(functionName, WithEvents(functionObj, before + after));
            (r1.Success? <==> r2.Success?) && (r1.Success? ==> r1 == r2)
  {
    var with := before + [event] + after;
    var without := before + after;
    assert Events(WithEvents(functionObj, with)) == Arr(with);
    assert Events(WithEvents(functionObj, without)) == Arr(without);
    SkippedEventRoutesNothing(functionName, before, event, after, DynamoDb);
    SkippedEventRoutesNothing(functionName, before, event, after, Kinesis);
    SkippedEventWarnsNothing(functionName, before, event, after);
    SkippedEventThrowsNothing(functionName, before, event, after);
  }

  /**
   * A function none of whose events is a stream event gets no streams
   * policy and logs nothing (index.js:76-83).
   */
  lemma {:induction false} NoStreamEventsNoPolicy(functionName: string, events: seq<Value>)
    requires forall i :: 0 <= i < |events| ==> !events[i].Null? && !Truthy(Get(events[i], "stream"))
    ensures Readable(functionName, events)
    ensures Routed(functionName, events, DynamoDb) == [] && Routed(functionName, events, Kinesis) == []
    ensures Warned(functionName, events) == []
    ensures StreamsPolicy(functionName, map["events" := Arr(events)]) == Success((None, []))
    decreases |events|
  {
    if events != [] {
      NoStreamEventsNoPolicy(functionName, events[1..]);
      ReadableSplit(functionName, events);
    }
    assert Events(map["events" := Arr(events)]) == Arr(events);
  }

  /**
   * Every entry of a readable event list is accounted for exactly once: it
   * adds one reference to one bucket, or logs one warning, or is skipped.
   */
  lemma {:induction false} EveryEventAccountedFor(functionName: string, events: seq<Value>)
    requires Readable(functionName, events)
    ensures |Routed(functionName, events, DynamoDb)| + |Routed(functionName, events, Kinesis)|
      + |Warned(functionName, events)| + Skipped(functionName, events) == |events|
    decreases |events|
  {
    if events != [] {
      ReadableSplit(functionName, events);
      EveryEventAccountedFor(functionName, events[1..]);
      assert ClassifyEvent(functionName, events[0]).Success?;
    }
  }

  /**
   * A bucket holds exactly the references of the entries accepted for its
   * service: nothing is invented and nothing accepted is lost.
   */
  lemma {:induction false} RoutedProvenance(functionName: string, events: seq<Value>, kind: Kind, ref: Value)
    ensures ref in Routed(functionName, events, kind) <==>
      exists i :: 0 <= i < |events| && ClassifyEvent(functionName, events[i]) == Success(Accept(kind, ref))
    decreases |events|
  {
    if events != [] {
      RoutedProvenance(functionName, events[1..], kind, ref);
      if ref in Routed(functionName, events[1..], kind) {
        var j :| 0 <= j < |events[1..]| && ClassifyEvent(functionName, events[1..][j]) == Success(Accept(kind, ref));
        assert events[1..][j] == events[j + 1];
      }
      if exists i :: 0 <= i < |events| && ClassifyEvent(functionName, events[i]) == Success(Accept(kind, ref)) {
        var i :| 0 <= i < |events| && ClassifyEvent(functionName, events[i]) == Success(Accept(kind, ref));
        if i > 0 {
          assert events[1..][i - 1] == events[i];
        }
      }
    }
  }

  /** Every warning of a function's streams names that function and is one of the two stream warnings. */
  lemma {:induction false} WarningsNameTheFunction(functionName: string, events: seq<Value>)
    ensures forall j :: 0 <= j < |Warned(functionName, events)| ==>
      Warned(functionName, events)[j] in {SourceNotConfigured(functionName), TypeNotConfigured(functionName)}
    decreases |events|
  {
    if events != [] {
      WarningsNameTheFunction(functionName, events[1..]);
    }
  }

  /**
   * A bare ARN `partition-prefix:partition:service:...` as the stream is its
   * own reference and is routed by its service piece (index.js:86-87, 97).
   */
  lemma BareArnRoutedByService(functionName: string, first: string, second: string, service: string, rest: seq<string>)
    requires ':' !in first && ':' !in second && ':' !in service
    requires forall i :: 0 <= i < |rest| ==> ':' !in rest[i]
    ensures var arn := Strings.Join([first, second, service] + rest, ":");
      ClassifyEvent(functionName, Obj(map["stream" := Str(arn)])) == Success(
        if service == "dynamodb" then Accept(DynamoDb, Str(arn))
        else if service == "kinesis" then Accept(Kinesis, Str(arn))
        else Reject(TypeNotConfigured(functionName)))
  {
    ServiceOfArn(first, second, service, rest);
    RoutedByServicePiece(functionName, Strings.Join([first, second, service] + rest, ":"), service);
  }

  /** A non-empty string as the stream is routed by its third piece. */
  lemma RoutedByServicePiece(functionName: string, arn: string, service: string)
    requires arn != "" && ArnService(arn) == Str(service)
    ensures ClassifyEvent(functionName, Obj(map["stream" := Str(arn)])) == Success(
        if service == "dynamodb" then Accept(DynamoDb, Str(arn))
        else if service == "kinesis" then Accept(Kinesis, Str(arn))
        else Reject(TypeNotConfigured(functionName)))
  {
    var event := Obj(map["stream" := Str(arn)]);
    assert Get(event, "stream") == Str(arn);
    assert Reference(Str(arn)) == Str(arn);
    assert Get(Str(arn), "type") == Null;
    if service == "dynamodb" {
      assert KindOf(Str(service)) == Some(DynamoDb);
    } else if service == "kinesis" {
      assert KindOf(Str(service)) == Some(Kinesis);
    } else {
      assert KindOf(Str(service)) == None;
    }
  }

  /** The third piece of a colon-joined reference is its third part. */
  lemma ServiceOfArn(first: string, second: string, service: string, rest: seq<string>)
    requires ':' !in first && ':' !in second && ':' !in service
    requires forall i :: 0 <= i < |rest| ==> ':' !in rest[i]
    ensures var arn := Strings.Join([first, second, service] + rest, ":");
      arn != "" && ArnService(arn) == Str(service)
  {
    var parts := [first, second, service] + rest;
    var arn := Strings.Join(parts, ":");
    PartsFreeOfColons(first, second, service, rest);
    assert [':'] == ":";
    Strings.SplitJoin(parts, ':');
    assert parts[2] == service;
    assert arn == first + ":" + Strings.Join(parts[1..], ":");
  }

  lemma PartsFreeOfColons(first: string, second: string, service: string, rest: seq<string>)
    requires ':' !in first && ':' !in second && ':' !in service
    requires forall i :: 0 <= i < |rest| ==> ':' !in rest[i]
    ensures forall i :: 0 <= i < |[first, second, service] + rest| ==> ':' !in ([first, second, service] + rest)[i]
  {
    var parts := [first, second, service] + rest;
    forall i | 0 <= i < |parts|
      ensures ':' !in parts[i]
    {
      if i >= 3 {
        assert parts[i] == rest[i - 3];
      }
    }
  }

  /**
   * A stream object with a truthy declared `type` and a truthy `arn` uses
   * both verbatim, whatever else it configures, so the reference may be a
   * deferred template value that is not a string (index.js:88-89, 97).
   */
  lemma DeclaredTypeUsedVerbatim(functionName: string, event: Value)
    requires !event.Null? && Get(event, "stream").Obj?
    requires Truthy(Get(Get(event, "stream"), "type")) && Truthy(Get(Get(event, "stream"), "arn"))
    ensures var stream := Get(event, "stream");
      ClassifyEvent(functionName, event) == Success(
        match KindOf(Get(stream, "type"))
        case Some(k) => Accept(k, Get(stream, "arn"))
        case None => Reject(TypeNotConfigured(functionName)))
  {
  }

  /**
   * A stream object without a declared type takes its service from the
   * third piece of its string `arn`, whatever else it configures
   * (index.js:88-89, 97).
   */
  lemma UntypedObjectRoutedByArn(functionName: string, event: Value)
    requires !event.Null? && Get(event, "stream").Obj?
    requires !Truthy(Get(Get(event, "stream"), "type"))
    requires Get(Get(event, "stream"), "arn").Str? && Get(Get(event, "stream"), "arn") != Str("")
    ensures var arn := Get(Get(event, "stream"), "arn");
      ClassifyEvent(functionName, event) == Success(
        match KindOf(ArnService(arn.s))
        case Some(k) => Accept(k, arn)
        case None => Reject(TypeNotConfigured(functionName)))
  {
  }

  /** An untyped stream object whose `arn` is not a string throws (index.js:97). */
  lemma UntypedDeferredArnThrows(functionName: string, event: Value)
    requires !event.Null? && Get(event, "stream").Obj?
    requires !Truthy(Get(Get(event, "stream"), "type"))
    requires Truthy(Get(Get(event, "stream"), "arn")) && !Get(Get(event, "stream"), "arn").Str?
    ensures ClassifyEvent(functionName, event) == Failure(ReferenceNotString)
  {
  }

  /** A string stream with fewer than three `:`-separated pieces has no type (index.js:97, 103). */
  lemma ShortReferenceHasNoType(functionName: string, event: Value)
    requires !event.Null? && Get(event, "stream").Str? && Get(event, "stream") != Str("")
    requires |Strings.Split(Get(event, "stream").s, ':')| < 3
    ensures ClassifyEvent(functionName, event) == Success(Reject(TypeNotConfigured(functionName)))
  {
  }

  /**
   * A function reading one DynamoDB and one Kinesis stream gets a streams
   * policy of exactly two statements, DynamoDB first, each over its own
   * reference (index.js:109-135).
   */
  lemma BothServicesTwoStatements(functionName: string, table: string, stream: Value)
    requires table != "" && Truthy(stream)
    ensures var events := [
        Obj(map["stream" := Obj(map["type" := Str("dynamodb"), "arn" := Str(table)])]),
        Obj(map["stream" := Obj(map["type" := Str("kinesis"), "arn" := stream])])];
      var r := StreamsPolicy(functionName, map["events" := Arr(events)]);
      && r.Success? && r.value.1 == [] && r.value.0.Some?
      && StatementCount(r.value.0.value) == 2
      && Grants(Statement(r.value.0.value, 0), StreamActions(DynamoDb), [Str(table)])
      && Grants(Statement(r.value.0.value, 1), StreamActions(Kinesis), [stream])
  {
    var events := [
        Obj(map["stream" := Obj(map["type" := Str("dynamodb"), "arn" := Str(table)])]),
        Obj(map["stream" := Obj(map["type" := Str("kinesis"), "arn" := stream])])];
    DeclaredTypeUsedVerbatim(functionName, events[0]);
    DeclaredTypeUsedVerbatim(functionName, events[1]);
    assert events[1..][1..] == [];
    assert Readable(functionName, events) by { ReadableSplit(functionName, events); ReadableSplit(functionName, events[1..]); }
    var first := ClassifyEvent(functionName, events[0]);
    var second := ClassifyEvent(functionName, events[1..][0]);
    assert first == Success(Accept(DynamoDb, Str(table)));
    assert second == Success(Accept(Kinesis, stream));
    assert Routed(functionName, events[1..][1..], DynamoDb) == [];
    assert Routed(functionName, events[1..][1..], Kinesis) == [];
    assert Warned(functionName, events[1..][1..]) == [];
    assert Routed(functionName, events[1..], DynamoDb) == [];
    assert Routed(functionName, events[1..], Kinesis) == [stream];
    assert Warned(functionName, events[1..]) == [];
    assert Routed(functionName, events, DynamoDb) == [Str(table)];
    assert Routed(functionName, events, Kinesis) == [stream];
    assert Warned(functionName, events) == [];
    assert Events(map["events" := Arr(events)]) == Arr(events);
    StreamsPolicyShape(functionName, map["events" := Arr(events)]);
  }
}
