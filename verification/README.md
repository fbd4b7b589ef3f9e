# aws-tag-watch: tag-compliance event handler, modelled in Dafny

aws-tag-watch is an AWS Lambda function (`index.js`). An SNS notification
tells it that CloudTrail has delivered trail objects to S3. It downloads each
object, gunzips it, parses it, and dispatches every trail record through a
registry keyed by (event source, event name). The one registered handler is
for EC2 `RunInstances`. For every instance id listed in the record, it calls
`describeInstances` and classifies the answer by its reservation and instance
counts. When the answer holds exactly one reservation with exactly one
instance, and that instance lacks the `aws:cloudformation:stack-name` tag, it
publishes an SNS alert naming the queried id. The
invocation ends with `context.succeed("done")`, or with `context.fail(err)`
if any branch reported an error.

The model has five modules:

- `Results` (results.dfy): `Option`, `Outcome` (`cb()` / `cb(err)`), `Result`, and `Error`.
- `FanOut` (fanout.dfy): `Each`, the `async.eachLimit` combinator taken sequentially. It returns a `Trace`: the alert texts handed to SNS plus the completion.
- `Registry` (registry.dfy): the two-level handler map, `registerHandler`, and the two-level lookup.
- `Compliance` (compliance.dfy): the `describeInstances` answer as a datatype, its classification, the tag filter, the alert text, and the per-instance callback.
- `Pipeline` (pipeline.dfy): the registration done at module load, `inspectTrail` dispatch, the RunInstances handler, and `exports.handler`.

S3 download + gunzip + `JSON.parse` (`fetch`), `describeInstances` (`describe`)
and SNS publish (`publish`) are function-valued parameters, bundled in
`Pipeline.Services`.

## Model

| member | source | states |
|---|---|---|
| FanOut.Each | index.js:41-134 | the fan-out completes without error exactly when every item does; on failure its error is the error of some item that every earlier item passed |
| FanOut.EachAlertsSound | index.js:41-134 | at each of the four `eachLimit` fan-outs (lines 41, 77, 80, 103), every alert of the fan-out was raised by one of its items |
| FanOut.EachAlertsComplete | index.js:41-134 | at each of the four `eachLimit` fan-outs (lines 41, 77, 80, 103), when the fan-out completes without error, every alert any item raised is among its alerts |
| FanOut.EachAllDone | index.js:41-48 | items that all complete at once with no alert make a fan-out that does the same |
| Registry.Lookup | index.js:42 | the two-level lookup finds a handler exactly for the registered (source, name) pairs |
| Registry.Register | index.js:28-37 | registering a pair that already has a handler throws "handler already registered" and leaves the registry as it was; otherwise the pair maps to the new handler. Every other pair's lookup is unchanged either way, and no source is left with an empty table |
| Registry.RegisterAddsOneEntry | index.js:30-36 | a successful registration adds exactly the new pair to the registered pairs, so their number grows by one |
| Registry.DuplicateRegistrationFails | index.js:33-35 | registering the same pair a second time always throws, whatever the two handlers |
| Compliance.Classify | index.js:110-131 | a tag check is of the one instance the answer holds; a skip means the answer holds no instance; "multiple instances" means it holds more than one; "multiple reservations" is given exactly when there is more than one reservation |
| Compliance.StackTags | index.js:118-120 | the filter keeps only tags with the stack-name key, keeps every such tag, and keeps nothing that was not in the list |
| Compliance.UntaggedIffNoStackKey | index.js:118-121 | the filtered list is empty exactly when no tag's key is `aws:cloudformation:stack-name` |
| Compliance.ClassifyByInstanceCount | index.js:110-131 | with at most one reservation, the answer is skipped iff it holds no instance, tag-checked iff it holds exactly one (that one), and rejected as "multiple instances" iff it holds more; it is rejected as "multiple reservations" iff it has more than one reservation |
| Compliance.AlertMessageRoundTrip | index.js:122 | the alert text "instance <id> is not tagged with aws:cloudformation:stack-name" gives back the queried id, so distinct ids never share an alert |
| Compliance.CheckInstance | index.js:104-133 | a service error is passed on; skip completes with no alert; a single untagged instance raises exactly the alert naming the queried id and completes as the publish does; a tagged one completes quietly; too many instances or reservations fail with the source's messages and raise no alert |
| Compliance.AlertIffUntagged | index.js:110-131 | an alert is raised only for a single found instance, and then iff none of its tags has the stack-name key |
| Pipeline.InitialRegistration | index.js:98 | the registration at module load succeeds; afterwards exactly one pair has a handler, ("ec2.amazonaws.com", "RunInstances"), and it is the RunInstances handler |
| Pipeline.RunInstancesHandler | index.js:98-135 | the RunInstances handler completes without error exactly when the check of every listed instance id does |
| Pipeline.InspectTrail | index.js:39-49 | inspecting a trail completes without error exactly when every record's dispatch does |
| Pipeline.ProcessEnvelope | index.js:80-88 | one SNS message completes without error exactly when every object key it names does |
| Pipeline.InspectRecord | index.js:42-47 | a record whose event source has no table, or whose event name is missing under a known source, completes at once with no alert; a record whose pair is registered runs the handler stored for that pair |
| Pipeline.OnlyRunInstancesDispatched | index.js:42-47 | with the module-load registry, every record other than EC2 RunInstances is a no-op, and RunInstances records go to the RunInstances handler |
| Pipeline.UnhandledTrailIsNoOp | index.js:39-49 | a trail none of whose records has a handler completes without error and raises no alert |
| Pipeline.ProcessKey | index.js:81-86 | a fetch error (S3 read or gunzip) fails that key with that error and raises no alert; otherwise the key completes without error exactly when every record of its trail does |
| Pipeline.HandleEvent | index.js:75-95 | the invocation succeeds, with token "done", exactly when every object key of every SNS message was processed without error; otherwise it fails with the error of one of the failed keys |
| Pipeline.RunInstancesAlertsJustified | index.js:103-134 | every alert of the RunInstances handler is the alert for one of the instance ids the record lists, and that id's answer held exactly one reservation with one instance, without the stack-name tag |
| Pipeline.RecordAlertsJustified | index.js:42-47 | a record raises alerts only when its pair is registered to the RunInstances handler, and then only such listed alerts |
| Pipeline.TrailAlertsJustified | index.js:41-48 | every alert raised while inspecting a trail is such a listed alert of one of its records dispatched to the RunInstances handler |
| Pipeline.EnvelopeAlertsJustified | index.js:80-88 | every alert raised for one SNS message comes from the trail fetched for one of its object keys, as above |
| Pipeline.InvocationAlertsJustified | index.js:77-95 | every alert of a whole invocation comes from one of its SNS messages, as above |
| Pipeline.Handler | index.js:75-98 | the exported handler uses the registry built at module load. It succeeds with "done" exactly when no object key failed, and otherwise fails with the error of a failed key. Every alert it publishes is for an instance id listed in an EC2 RunInstances record of a fetched trail, whose answer found it alone without the stack-name tag |
| Pipeline.HandlerAlertsComplete | index.js:77-134 | when the exported handler succeeds, every instance id listed in an EC2 RunInstances record of a fetched trail, whose answer found it alone without the stack-name tag, got its alert |
| Pipeline.RunInstancesAlertsComplete | index.js:103-134 | when the RunInstances handler completes without error, every listed instance whose answer held a single untagged instance got its alert |

## Left out

- Concurrency: `async.eachLimit` runs up to 5 items at once (index.js:41, 77, 80, 103). `FanOut.Each` runs them one after another and stops at the first failure. Which error is reported first, and which alerts already in flight still go out after a failure, depend on completion order. The model does not cover that. The completion (succeed iff nothing failed) does not depend on order.
- S3 `getObject`, `zlib.gunzip` and `JSON.parse` (index.js:51-72): library and network code that cannot be seen here. Their combined effect is the `fetch` parameter, which yields the parsed records or an error.
- Pipeline.ProcessKey: `fetch` turns two thrown exceptions into ordinary `Failure` results. In the source, only S3 and gunzip errors reach `cb(err)` (index.js:60-61, 64-65). A `JSON.parse` failure throws inside the gunzip callback (index.js:67), and a trail without a `Records` field throws a TypeError at `trail.Records.length` (index.js:40). Both are uncaught exceptions. They never reach `context.fail` and they end sibling branches. The model treats them as a failed key instead.
- Parsing of the SNS envelope (`JSON.parse(record.Sns.Message)`, index.js:78): the model starts from already decoded `Envelope` values. A malformed message throws synchronously in the source; that is not modelled.
- `describeInstances` and SNS `publish`: foreign clients, modelled as the `describe` and `publish` parameters. The SNS subject, topic ARN and region constants are configuration and are not modelled.
- Repeated calls: `fetch`, `describe` and `publish` are functions of their argument. So within one invocation, a repeated call with the same argument is assumed to return the same result. In the source each call is its own network request (index.js:56, 104, 21). An instance id listed twice, an alert text published twice, or an object key fetched twice could get different answers there. The alert guarantees speak of "the" answer for an id under this assumption.
- `console.log` calls: output only.
- A RunInstances record whose `responseElements` is null (a failed RunInstances call) makes the source throw a `TypeError`. The model takes the list of instance ids as given.
- The registry is a plain JavaScript object. Property names inherited from `Object.prototype`, such as `constructor` or `toString`, would be found by the lookup even though nothing registered them. The model is a `map` with no inherited keys.
- The instance id in an alert is the queried id from the trail record, as in the source, not the id in the service's answer.
