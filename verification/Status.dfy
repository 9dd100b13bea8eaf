/** JSON merge patches, section 2 of RFC 7396. Arrays and scalars are replaced whole, so both are leaves. */
module MergePatch {
  import opened Types

  datatype Json<K(==), V> = Null | Leaf(value: V) | Object(fields: map<K, Json<K, V>>)

  function Apply<K(==), V>(target: Json<K, V>, patch: Json<K, V>): Json<K, V>
    decreases patch
  {
    if !patch.Object? then patch
    else
      var base := if target.Object? then target.fields else map[];
      Object(map k | k in base.Keys + patch.fields.Keys && !(k in patch.fields && patch.fields[k].Null?) ::
               if k in patch.fields
               then Apply(if k in base then base[k] else Null, patch.fields[k])
               else base[k])
  }

  /** Sending the same patch again changes nothing, so a patch whose reply was lost may be retried. */
  lemma {:induction false} ApplyTwice<K, V>(target: Json<K, V>, patch: Json<K, V>)
    ensures Apply(Apply(target, patch), patch) == Apply(target, patch)
    decreases patch
  {
    if patch.Object? {
      var once := Apply(target, patch);
      var twice := Apply(once, patch);
      assert twice.fields.Keys == once.fields.Keys;
      forall k | k in once.fields
        ensures twice.fields[k] == once.fields[k]
      {
        if k in patch.fields {
          var base := if target.Object? then target.fields else map[];
          ApplyTwice(if k in base then base[k] else Null, patch.fields[k]);
        }
      }
    }
  }

  function Get<K, V>(d: Json<K, V>, key: K): Option<Json<K, V>> {
    if d.Object? && key in d.fields then Some(d.fields[key]) else None
  }

  /** Per key: a null removes, anything else is merged into what was there, an absent key leaves things alone. */
  lemma GetApply<K, V>(target: Json<K, V>, patch: Json<K, V>, key: K)
    requires patch.Object?
    ensures Get(Apply(target, patch), key) ==
            match Get(patch, key)
            case None => Get(target, key)
            case Some(p) => if p.Null? then None else Some(Apply(Get(target, key).GetOr(Null), p))
    ensures Get(patch, key).Some? && Get(patch, key).value.Leaf? ==> Get(Apply(target, patch), key) == Get(patch, key)
  {
  }

  /** A field that holds a scalar or an array. */
  function Scalar<K, V>(d: Json<K, V>, key: K): Option<V> {
    match Get(d, key)
    case Some(Leaf(v)) => Some(v)
    case _ => None
  }

  lemma ScalarApply<K, V>(target: Json<K, V>, patch: Json<K, V>, key: K)
    requires patch.Object? && (Get(patch, key).Some? ==> Get(patch, key).value.Leaf?)
    ensures Scalar(Apply(target, patch), key) == Scalar(patch, key).Or(Scalar(target, key))
  {
    GetApply(target, patch, key);
  }
}

/** The experiment's status and how a write of it reaches the API server. */
module ExperimentStatus {
  import opened Types
  import opened MergePatch

  datatype ValidationError =
    | InvalidDuration
    | NoTargetNodes
    | MissingEdgeTarget
    | SourceServiceNotFound(service: string)
    | ConflictingVirtualService(host: string)
    | EdgeUnresolved
    | NoFault

  datatype Message =
    | RunningOnNodes(count: nat, secs: nat)
    | RunningOnEdge(edge: Edge, secs: nat)
    | EdgeDurationElapsed
    | JobFailed
    | JobsCompleted
    | DurationElapsed
    | Rejected(error: ValidationError)

  datatype Status = Status(
    phase: Phase,
    message: Option<Message>,
    startedAt: Option<int>,
    completedAt: Option<int>,
    experimentId: Option<string>,
    runnerJobs: seq<string>,
    cleanupDone: bool)

  const EMPTY := Status(Pending, None, None, None, None, [], false)

  /** The effect of a merge patch on the decoded status: omitted fields keep their stored value. */
  function Overlay(stored: Status, patch: Status): Status {
    Status(
      patch.phase,
      patch.message.Or(stored.message),
      patch.startedAt.Or(stored.startedAt),
      patch.completedAt.Or(stored.completedAt),
      patch.experimentId.Or(stored.experimentId),
      if patch.runnerJobs == [] then stored.runnerJobs else patch.runnerJobs,
      patch.cleanupDone)
  }

  datatype Field = FPhase | FMessage | FStartedAt | FCompletedAt | FExperimentId | FRunnerJobs | FCleanupDone

  datatype Value =
    | PhaseValue(phase: Phase)
    | MessageValue(message: Message)
    | TimeValue(time: int)
    | TextValue(text: string)
    | NamesValue(names: seq<string>)
    | FlagValue(flag: bool)

  type Document = Json<Field, Value>

  /** Serialisation: `None` and empty vectors are omitted, the phase and the cleanup flag never are. */
  function Serialised(s: Status, field: Field): Option<Value> {
    match field
    case FPhase => Some(PhaseValue(s.phase))
    case FMessage => if s.message.Some? then Some(MessageValue(s.message.value)) else None
    case FStartedAt => if s.startedAt.Some? then Some(TimeValue(s.startedAt.value)) else None
    case FCompletedAt => if s.completedAt.Some? then Some(TimeValue(s.completedAt.value)) else None
    case FExperimentId => if s.experimentId.Some? then Some(TextValue(s.experimentId.value)) else None
    case FRunnerJobs => if s.runnerJobs != [] then Some(NamesValue(s.runnerJobs)) else None
    case FCleanupDone => Some(FlagValue(s.cleanupDone))
  }

  function Encode(s: Status): Document {
    Object(map f: Field | Serialised(s, f).Some? :: Leaf(Serialised(s, f).value))
  }

  /** Deserialisation, with the defaults of absent fields. */
  function Decode(d: Document): Status {
    var phase, cleanup := Scalar(d, FPhase), Scalar(d, FCleanupDone);
    var message, started, completed := Scalar(d, FMessage), Scalar(d, FStartedAt), Scalar(d, FCompletedAt);
    var id, jobs := Scalar(d, FExperimentId), Scalar(d, FRunnerJobs);
    Status(
      if phase.Some? && phase.value.PhaseValue? then phase.value.phase else Pending,
      if message.Some? && message.value.MessageValue? then Some(message.value.message) else None,
      if started.Some? && started.value.TimeValue? then Some(started.value.time) else None,
      if completed.Some? && completed.value.TimeValue? then Some(completed.value.time) else None,
      if id.Some? && id.value.TextValue? then Some(id.value.text) else None,
      if jobs.Some? && jobs.value.NamesValue? then jobs.value.names else [],
      cleanup.Some? && cleanup.value.FlagValue? && cleanup.value.flag)
  }

  lemma ScalarEncode(s: Status, f: Field)
    ensures Encode(s).Object? && (Get(Encode(s), f).Some? ==> Get(Encode(s), f).value.Leaf?)
    ensures Scalar(Encode(s), f) == Serialised(s, f)
  {
  }

  /** On documents, a merge patch of a serialised status is exactly the overlay, whatever was stored. */
  lemma MergeIsOverlay(stored: Document, patch: Status)
    ensures Decode(Apply(stored, Encode(patch))) == Overlay(Decode(stored), patch)
  {
    hide Apply, Scalar, Get, Encode;
    forall f: Field
      ensures Scalar(Apply(stored, Encode(patch)), f) == Serialised(patch, f).Or(Scalar(stored, f))
    {
      ScalarEncode(patch, f);
      ScalarApply(stored, Encode(patch), f);
    }
  }

  /** Reading back what was written into an absent status gives the status written. */
  lemma WrittenIsRead(s: Status)
    ensures Decode(Apply(Null, Encode(s))) == s
  {
    MergeIsOverlay(Null, s);
  }
}
