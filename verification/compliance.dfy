/** The RunInstances compliance decision of index.js: for one instance id
    taken from a RunInstances record, the `describeInstances` answer is
    classified by its reservation and instance counts, and a single found
    instance is checked for the CloudFormation stack-name tag; an untagged
    instance raises an alert naming the queried id. */
module Compliance {
  import opened Results
  import opened FanOut

  /** The tag key every instance must carry. */
  const StackTagKey := "aws:cloudformation:stack-name"

  datatype Tag = Tag(key: string, value: string)

  /** An instance as described by the inventory service; an instance with no
      `Tags` property has the empty tag list. */
  datatype Instance = Instance(instanceId: string, tags: seq<Tag>)

  datatype Reservation = Reservation(instances: seq<Instance>)

  /** The `data` of a successful `describeInstances` call. */
  datatype DescribeResponse = DescribeResponse(reservations: seq<Reservation>)

  /** How the handler treats one `describeInstances` answer. */
  datatype Verdict =
    | NotFound                 // logged and skipped
    | CheckTags(instance: Instance)
    | MultipleInstances        // one reservation holding several instances
    | MultipleReservations

  const MultipleInstancesError: Error := Error("multiple instances found for instance id")
  const MultipleReservationsError: Error := Error("multiple reservations instances found for instance id")

  /** The tags whose key is the stack-name key (the `underscore.filter` call). */
  function StackTags(tags: seq<Tag>): (r: seq<Tag>)
    ensures |r| <= |tags|
    ensures forall i :: 0 <= i < |r| ==> r[i].key == StackTagKey && r[i] in tags
    ensures forall i :: 0 <= i < |tags| && tags[i].key == StackTagKey ==> tags[i] in r
    decreases |tags|
  {
    if |tags| == 0 then []
    else
      var rest := StackTags(tags[1..]);
      assert forall i :: 1 <= i < |tags| ==> tags[i] == tags[1..][i - 1];
      if tags[0].key == StackTagKey then [tags[0]] + rest else rest
  }

  /** The instance violates the policy: the filter found no stack-name tag. */
  predicate Untagged(inst: Instance)
  {
    |StackTags(inst.tags)| == 0
  }

  /** The filter-length test is exactly "no tag has the stack-name key". */
  lemma UntaggedIffNoStackKey(inst: Instance)
    ensures Untagged(inst) <==> forall i :: 0 <= i < |inst.tags| ==> inst.tags[i].key != StackTagKey
  {
    var found := StackTags(inst.tags);
    if |found| > 0 {
      assert found[0] in inst.tags;
      var i :| 0 <= i < |inst.tags| && inst.tags[i] == found[0];
      assert inst.tags[i].key == StackTagKey;
    }
  }

  /** Classifies an answer by its reservation count, then by the instance
      count of the single reservation. */
  function Classify(resp: DescribeResponse): (r: Verdict)
    ensures r.CheckTags? ==> AllInstances(resp.reservations) == [r.instance]
    ensures r == NotFound ==> AllInstances(resp.reservations) == []
    ensures r == MultipleInstances ==> |AllInstances(resp.reservations)| > 1
    ensures r == MultipleReservations <==> |resp.reservations| > 1
  {
    var rs := resp.reservations;
    assert |rs| == 1 ==> AllInstances(rs) == rs[0].instances + AllInstances(rs[1..]) && AllInstances(rs[1..]) == [];
    if |rs| == 0 then NotFound
    else if |rs| == 1 then
      if |rs[0].instances| == 0 then NotFound
      else if |rs[0].instances| == 1 then CheckTags(rs[0].instances[0])
      else MultipleInstances
    else MultipleReservations
  }

  /** All instances of an answer, reservation after reservation. */
  function AllInstances(rs: seq<Reservation>): seq<Instance>
    decreases |rs|
  {
    if |rs| == 0 then [] else rs[0].instances + AllInstances(rs[1..])
  }

  /** The classification, read against the flat list of instances the answer
      holds: with at most one reservation, nothing found means skip, exactly
      one instance means a tag check of that instance, and more means an
      error; more than one reservation is an error whatever they hold. */
  lemma ClassifyByInstanceCount(resp: DescribeResponse)
    ensures |resp.reservations| <= 1 ==>
              (Classify(resp) == NotFound <==> |AllInstances(resp.reservations)| == 0)
    ensures |resp.reservations| <= 1 ==>
              forall inst :: Classify(resp) == CheckTags(inst) <==> AllInstances(resp.reservations) == [inst]
    ensures |resp.reservations| <= 1 ==>
              (Classify(resp) == MultipleInstances <==> |AllInstances(resp.reservations)| > 1)
    ensures |resp.reservations| > 1 <==> Classify(resp) == MultipleReservations
  {
  }

  const AlertPrefix := "instance "
  const AlertSuffix := " is not tagged with " + StackTagKey

  /** The alert text for the queried instance id. */
  function AlertMessage(instanceId: string): string
  {
    AlertPrefix + instanceId + AlertSuffix
  }

  /** Recovers the instance id an alert text names, if it is an alert text. */
  function AlertedInstance(message: string): Option<string>
  {
    if |message| >= |AlertPrefix| + |AlertSuffix|
       && message[..|AlertPrefix|] == AlertPrefix
       && message[|message| - |AlertSuffix|..] == AlertSuffix
    then Some(message[|AlertPrefix|..|message| - |AlertSuffix|])
    else None
  }

  /** Every alert text names exactly the id it was raised for, so distinct
      instances never share an alert. */
  lemma AlertMessageRoundTrip(instanceId: string)
    ensures AlertedInstance(AlertMessage(instanceId)) == Some(instanceId)
  {
  }

  /** `describeInstances` answered and found one instance that lacks the tag. */
  predicate ShouldAlert(answer: Result<DescribeResponse, Error>)
  {
    answer.Success? && Classify(answer.value).CheckTags? && Untagged(Classify(answer.value).instance)
  }

  /** The per-item callback: queries one instance id (the service's answer is
      `answer`), then skips, alerts through `publish`, or fails. */
  function CheckInstance(instanceId: string, answer: Result<DescribeResponse, Error>,
                         publish: string -> Outcome<Error>): (r: Trace)
    ensures r.alerts == if ShouldAlert(answer) then [AlertMessage(instanceId)] else []
    ensures answer.Failure? ==> r.outcome == Fail(answer.error)
    ensures answer.Success? ==>
              match Classify(answer.value)
              case NotFound => r.outcome == Pass
              case CheckTags(inst) =>
                r.outcome == if Untagged(inst) then publish(AlertMessage(instanceId)) else Pass
              case MultipleInstances => r.outcome == Fail(MultipleInstancesError)
              case MultipleReservations => r.outcome == Fail(MultipleReservationsError)
  {
    match answer
    case Failure(err) => Trace([], Fail(err))
    case Success(resp) =>
      match Classify(resp)
      case NotFound => Done
      case CheckTags(inst) =>
        if Untagged(inst) then
          var message := AlertMessage(instanceId);
          Trace([message], publish(message))
        else Done
      case MultipleInstances => Trace([], Fail(MultipleInstancesError))
      case MultipleReservations => Trace([], Fail(MultipleReservationsError))
  }

  /** No answer that is skipped or rejected ever raises an alert; with
      exactly one instance found, an alert is raised if and only if no tag
      carries the stack-name key. */
  lemma AlertIffUntagged(instanceId: string, resp: DescribeResponse, publish: string -> Outcome<Error>)
    ensures var r := CheckInstance(instanceId, Success(resp), publish);
            (|r.alerts| > 0 ==> Classify(resp).CheckTags?) &&
            (Classify(resp).CheckTags? ==>
               (r.alerts == [AlertMessage(instanceId)] <==>
                  forall i :: 0 <= i < |Classify(resp).instance.tags| ==>
                                Classify(resp).instance.tags[i].key != StackTagKey))
  {
    if Classify(resp).CheckTags? {
      UntaggedIffNoStackKey(Classify(resp).instance);
    }
  }
}
