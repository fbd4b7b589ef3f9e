/** The event path of index.js: the registry built at module load, the
    per-record dispatch of `inspectTrail`, the RunInstances handler, and the
    top-level `handler` that walks SNS records and object keys and reports
    `"done"` or the error. The AWS services are parameters. */
module Pipeline {
  import opened Results
  import opened FanOut
  import opened Registry
  import opened Compliance

  /** The handlers index.js defines; it registers one. */
  datatype HandlerId = RunInstancesCheck

  const Ec2Source := "ec2.amazonaws.com"
  const RunInstancesName := "RunInstances"
  const DoneToken := "done"

  /** A CloudTrail record: where it came from, what it was, and the instance
      ids listed in its `responseElements.instancesSet.items`. */
  datatype TrailRecord = TrailRecord(eventSource: string, eventName: string, instanceIds: seq<string>)

  /** One SNS message: the bucket and the object keys of the delivered trails. */
  datatype Envelope = Envelope(bucket: string, objectKeys: seq<string>)

  /** The services the handler calls: downloading, decompressing and parsing
      a trail object; `describeInstances` for one instance id; and publishing
      an alert text. */
  datatype Services = Services(
    fetch: (string, string) -> Result<seq<TrailRecord>, Error>,
    describe: string -> Result<DescribeResponse, Error>,
    publish: string -> Outcome<Error>)

  /** How the invocation ends: `context.succeed(token)` or `context.fail(err)`. */
  datatype Completion = Succeeded(token: string) | Failed(error: Error)

  datatype Invocation = Invocation(alerts: seq<string>, completion: Completion)

  /** The registration performed when the module loads. */
  function InitialRegistration(): (r: Registration<HandlerId>)
    ensures r.outcome == Pass
    ensures Entries(r.registry) == {(Ec2Source, RunInstancesName)}
    ensures Lookup(r.registry, Ec2Source, RunInstancesName) == Some(RunInstancesCheck)
  {
    var r := Register(map[], Ec2Source, RunInstancesName, RunInstancesCheck);
    RegisterAddsOneEntry(map[], Ec2Source, RunInstancesName, RunInstancesCheck);
    assert Entries<HandlerId>(map[]) == {};
    r
  }

  /** The registry every invocation sees. */
  function HandlerRegistry(): Registry<HandlerId>
  {
    InitialRegistration().registry
  }

  /** The RunInstances handler: checks every listed instance id. */
  function RunInstancesHandler(record: TrailRecord, svc: Services): (r: Trace)
    ensures r.outcome.Pass? <==>
              forall i :: 0 <= i < |record.instanceIds| ==>
                            CheckInstance(record.instanceIds[i], svc.describe(record.instanceIds[i]), svc.publish).outcome.Pass?
  {
    Each(record.instanceIds, (id: string) => CheckInstance(id, svc.describe(id), svc.publish))
  }

  function Invoke(handler: HandlerId, record: TrailRecord, svc: Services): Trace
  {
    match handler
    case RunInstancesCheck => RunInstancesHandler(record, svc)
  }

  /** One record of `inspectTrail`: call its handler, or complete at once
      when either level of the lookup is missing. */
  function InspectRecord(reg: Registry<HandlerId>, record: TrailRecord, svc: Services): (r: Trace)
    ensures record.eventSource !in reg || record.eventName !in reg[record.eventSource] ==> r == Done
    ensures (record.eventSource, record.eventName) in Entries(reg) ==>
              r == Invoke(reg[record.eventSource][record.eventName], record, svc)
  {
    match Lookup(reg, record.eventSource, record.eventName)
    case None => Done
    case Some(handler) => Invoke(handler, record, svc)
  }

  /** `inspectTrail`: dispatches every record of the trail. */
  function InspectTrail(reg: Registry<HandlerId>, trail: seq<TrailRecord>, svc: Services): (r: Trace)
    ensures r.outcome.Pass? <==> forall i :: 0 <= i < |trail| ==> InspectRecord(reg, trail[i], svc).outcome.Pass?
  {
    Each(trail, (record: TrailRecord) => InspectRecord(reg, record, svc))
  }

  /** `downloadAndParseTrail` followed by `inspectTrail` for one object key. */
  function ProcessKey(reg: Registry<HandlerId>, bucket: string, key: string, svc: Services): (r: Trace)
    ensures svc.fetch(bucket, key).Failure? ==> r == Trace([], Fail(svc.fetch(bucket, key).error))
    ensures r.outcome.Pass? <==>
              svc.fetch(bucket, key).Success? &&
              forall i :: 0 <= i < |svc.fetch(bucket, key).value| ==>
                            InspectRecord(reg, svc.fetch(bucket, key).value[i], svc).outcome.Pass?
  {
    match svc.fetch(bucket, key)
    case Failure(err) => Trace([], Fail(err))
    case Success(trail) => InspectTrail(reg, trail, svc)
  }

  /** One SNS message: processes every object key it names. */
  function ProcessEnvelope(reg: Registry<HandlerId>, envelope: Envelope, svc: Services): (r: Trace)
    ensures r.outcome.Pass? <==>
              forall k :: 0 <= k < |envelope.objectKeys| ==>
                            ProcessKey(reg, envelope.bucket, envelope.objectKeys[k], svc).outcome.Pass?
    ensures r.outcome.Fail? ==>
              exists k :: 0 <= k < |envelope.objectKeys| &&
                          ProcessKey(reg, envelope.bucket, envelope.objectKeys[k], svc).outcome == r.outcome
  {
    Each(envelope.objectKeys, (key: string) => ProcessKey(reg, envelope.bucket, key, svc))
  }

  /** Some object key of some SNS message of the event failed with `err`. */
  predicate KeyFailedWith(reg: Registry<HandlerId>, event: seq<Envelope>, svc: Services, err: Error)
  {
    exists e, k :: 0 <= e < |event| && 0 <= k < |event[e].objectKeys| &&
                   ProcessKey(reg, event[e].bucket, event[e].objectKeys[k], svc).outcome == Fail(err)
  }

  /** `exports.handler` over the decoded SNS messages of one invocation. */
  function HandleEvent(reg: Registry<HandlerId>, event: seq<Envelope>, svc: Services): (r: Invocation)
    ensures r.completion == Succeeded(DoneToken) <==>
              forall e, k :: 0 <= e < |event| && 0 <= k < |event[e].objectKeys| ==>
                               ProcessKey(reg, event[e].bucket, event[e].objectKeys[k], svc).outcome.Pass?
    ensures r.completion.Succeeded? ==> r.completion.token == DoneToken
    ensures r.completion.Failed? ==> KeyFailedWith(reg, event, svc, r.completion.error)
  {
    var all := Each(event, (envelope: Envelope) => ProcessEnvelope(reg, envelope, svc));
    match all.outcome
    case Pass => Invocation(all.alerts, Succeeded(DoneToken))
    case Fail(err) => Invocation(all.alerts, Failed(err))
  }

  /** A trail none of whose records has a handler completes without error
      and raises no alert. */
  lemma UnhandledTrailIsNoOp(reg: Registry<HandlerId>, trail: seq<TrailRecord>, svc: Services)
    requires forall i :: 0 <= i < |trail| ==> Lookup(reg, trail[i].eventSource, trail[i].eventName).None?
    ensures InspectTrail(reg, trail, svc) == Done
  {
    EachAllDone(trail, (record: TrailRecord) => InspectRecord(reg, record, svc));
  }

  /** With the module-load registry, only EC2 RunInstances records reach a handler. */
  lemma OnlyRunInstancesDispatched(record: TrailRecord, svc: Services)
    ensures (record.eventSource, record.eventName) != (Ec2Source, RunInstancesName) ==>
              InspectRecord(HandlerRegistry(), record, svc) == Done
    ensures (record.eventSource, record.eventName) == (Ec2Source, RunInstancesName) ==>
              InspectRecord(HandlerRegistry(), record, svc) == RunInstancesHandler(record, svc)
  {
  }

  /** `message` is the alert for an instance id listed in the record whose
      `describeInstances` answer found exactly one instance, lacking the
      stack-name tag. */
  predicate ListedAlert(record: TrailRecord, svc: Services, message: string)
  {
    exists i :: 0 <= i < |record.instanceIds| && message == AlertMessage(record.instanceIds[i]) &&
                ShouldAlert(svc.describe(record.instanceIds[i]))
  }

  /** `message` is a listed alert of a trail record dispatched to the RunInstances handler. */
  predicate TrailAlert(reg: Registry<HandlerId>, trail: seq<TrailRecord>, svc: Services, message: string)
  {
    exists j :: 0 <= j < |trail| &&
                Lookup(reg, trail[j].eventSource, trail[j].eventName) == Some(RunInstancesCheck) &&
                ListedAlert(trail[j], svc, message)
  }

  /** `message` is an alert of the trail fetched for one of the message's object keys. */
  predicate EnvelopeAlert(reg: Registry<HandlerId>, envelope: Envelope, svc: Services, message: string)
  {
    exists k :: 0 <= k < |envelope.objectKeys| &&
                svc.fetch(envelope.bucket, envelope.objectKeys[k]).Success? &&
                TrailAlert(reg, svc.fetch(envelope.bucket, envelope.objectKeys[k]).value, svc, message)
  }

  /** `message` is an alert of one of the event's SNS messages. */
  predicate EventAlert(reg: Registry<HandlerId>, event: seq<Envelope>, svc: Services, message: string)
  {
    exists e :: 0 <= e < |event| && EnvelopeAlert(reg, event[e], svc, message)
  }

  /** Every alert of the RunInstances handler is for one of the instance ids
      the record lists, found alone and untagged. */
  lemma RunInstancesAlertsJustified(record: TrailRecord, svc: Services)
    ensures forall m :: m in RunInstancesHandler(record, svc).alerts ==> ListedAlert(record, svc, m)
  {
    var f := (id: string) => CheckInstance(id, svc.describe(id), svc.publish);
    EachAlertsSound(record.instanceIds, f, (m: string) => ListedAlert(record, svc, m));
  }

  /** A record raises alerts only through the RunInstances handler, and only listed ones. */
  lemma RecordAlertsJustified(reg: Registry<HandlerId>, record: TrailRecord, svc: Services)
    ensures forall m :: m in InspectRecord(reg, record, svc).alerts ==>
              Lookup(reg, record.eventSource, record.eventName) == Some(RunInstancesCheck) &&
              ListedAlert(record, svc, m)
  {
    match Lookup(reg, record.eventSource, record.eventName)
    case None =>
      assert InspectRecord(reg, record, svc) == Done;
    case Some(handler) =>
      assert handler == RunInstancesCheck;
      assert InspectRecord(reg, record, svc) == RunInstancesHandler(record, svc);
      RunInstancesAlertsJustified(record, svc);
  }

  lemma TrailAlertsJustified(reg: Registry<HandlerId>, trail: seq<TrailRecord>, svc: Services)
    ensures forall m :: m in InspectTrail(reg, trail, svc).alerts ==> TrailAlert(reg, trail, svc, m)
  {
    var f := (record: TrailRecord) => InspectRecord(reg, record, svc);
    forall j, m | 0 <= j < |trail| && m in f(trail[j]).alerts
      ensures TrailAlert(reg, trail, svc, m)
    {
      RecordAlertsJustified(reg, trail[j], svc);
    }
    EachAlertsSound(trail, f, (m: string) => TrailAlert(reg, trail, svc, m));
  }

  lemma EnvelopeAlertsJustified(reg: Registry<HandlerId>, envelope: Envelope, svc: Services)
    ensures forall m :: m in ProcessEnvelope(reg, envelope, svc).alerts ==> EnvelopeAlert(reg, envelope, svc, m)
  {
    var f := (key: string) => ProcessKey(reg, envelope.bucket, key, svc);
    forall k, m | 0 <= k < |envelope.objectKeys| && m in f(envelope.objectKeys[k]).alerts
      ensures EnvelopeAlert(reg, envelope, svc, m)
    {
      var fetched := svc.fetch(envelope.bucket, envelope.objectKeys[k]);
      if fetched.Success? {
        TrailAlertsJustified(reg, fetched.value, svc);
      }
    }
    EachAlertsSound(envelope.objectKeys, f, (m: string) => EnvelopeAlert(reg, envelope, svc, m));
  }

  /** Every alert an invocation publishes is for an instance id listed in a
      RunInstances record of a fetched trail, found alone without the
      stack-name tag. */
  lemma InvocationAlertsJustified(reg: Registry<HandlerId>, event: seq<Envelope>, svc: Services)
    ensures forall m :: m in HandleEvent(reg, event, svc).alerts ==> EventAlert(reg, event, svc, m)
  {
    var f := (envelope: Envelope) => ProcessEnvelope(reg, envelope, svc);
    forall e, m | 0 <= e < |event| && m in f(event[e]).alerts
      ensures EventAlert(reg, event, svc, m)
    {
      EnvelopeAlertsJustified(reg, event[e], svc);
    }
    EachAlertsSound(event, f, (m: string) => EventAlert(reg, event, svc, m));
  }

  /** When the RunInstances handler completes without error, every listed
      instance that was found alone and untagged got its alert. */
  lemma RunInstancesAlertsComplete(record: TrailRecord, svc: Services, i: nat)
    requires RunInstancesHandler(record, svc).outcome.Pass?
    requires i < |record.instanceIds| && ShouldAlert(svc.describe(record.instanceIds[i]))
    ensures AlertMessage(record.instanceIds[i]) in RunInstancesHandler(record, svc).alerts
  {
    var f := (id: string) => CheckInstance(id, svc.describe(id), svc.publish);
    EachAlertsComplete(record.instanceIds, f, i, AlertMessage(record.instanceIds[i]));
  }

  /** The exported handler, run against the registry built at module load:
      it succeeds with "done" exactly when no object key failed, and fails
      with the error of a failed key otherwise; every alert it publishes is
      for an instance listed in an EC2 RunInstances record of a fetched
      trail, found alone without the stack-name tag. */
  function Handler(event: seq<Envelope>, svc: Services): (r: Invocation)
    ensures r.completion == Succeeded(DoneToken) <==>
              forall e, k :: 0 <= e < |event| && 0 <= k < |event[e].objectKeys| ==>
                               ProcessKey(HandlerRegistry(), event[e].bucket, event[e].objectKeys[k], svc).outcome.Pass?
    ensures r.completion.Succeeded? ==> r.completion.token == DoneToken
    ensures r.completion.Failed? ==> KeyFailedWith(HandlerRegistry(), event, svc, r.completion.error)
    ensures forall m :: m in r.alerts ==> EventAlert(HandlerRegistry(), event, svc, m)
  {
    InvocationAlertsJustified(HandlerRegistry(), event, svc);
    HandleEvent(HandlerRegistry(), event, svc)
  }

  /** When the exported handler succeeds, every instance id listed in an EC2
      RunInstances record of a fetched trail, whose answer found it alone
      without the stack-name tag, got its alert. */
  lemma HandlerAlertsComplete(event: seq<Envelope>, svc: Services, e: nat, k: nat, j: nat, i: nat)
    requires Handler(event, svc).completion.Succeeded?
    requires e < |event| && k < |event[e].objectKeys|
    requires svc.fetch(event[e].bucket, event[e].objectKeys[k]).Success?
    requires j < |svc.fetch(event[e].bucket, event[e].objectKeys[k]).value|
    requires var record := svc.fetch(event[e].bucket, event[e].objectKeys[k]).value[j];
             (record.eventSource, record.eventName) == (Ec2Source, RunInstancesName) &&
             i < |record.instanceIds| && ShouldAlert(svc.describe(record.instanceIds[i]))
    ensures AlertMessage(svc.fetch(event[e].bucket, event[e].objectKeys[k]).value[j].instanceIds[i])
              in Handler(event, svc).alerts
  {
    var reg := HandlerRegistry();
    var envelope := event[e];
    var key := envelope.objectKeys[k];
    var trail := svc.fetch(envelope.bucket, key).value;
    var record := trail[j];
    var m := AlertMessage(record.instanceIds[i]);
    assert ProcessKey(reg, envelope.bucket, key, svc).outcome.Pass?;
    assert InspectRecord(reg, record, svc).outcome.Pass?;
    OnlyRunInstancesDispatched(record, svc);
    RunInstancesAlertsComplete(record, svc, i);
    EachAlertsComplete(trail, (rec: TrailRecord) => InspectRecord(reg, rec, svc), j, m);
    assert ProcessEnvelope(reg, envelope, svc).outcome.Pass?;
    EachAlertsComplete(envelope.objectKeys, (ky: string) => ProcessKey(reg, envelope.bucket, ky, svc), k, m);
    EachAlertsComplete(event, (env: Envelope) => ProcessEnvelope(reg, env, svc), e, m);
  }
}
