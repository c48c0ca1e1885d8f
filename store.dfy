/**
 * The secret store as the rotation handler sees it: one secret with its
 * rotation flag, its map from version id to stage labels and the values
 * of its versions, plus the log of every request the handler sends.
 *
 * What the remote service answers to a request is an input of the model
 * (a `Reply`); what a successful put or stage move does to the map is the
 * small service semantics below (`PutVersion`, `MoveStage`), assumed of
 * the service and not proved of the handler.
 */
module Store {

  type VersionId = string
  type Stage = string

  const AWSCURRENT: Stage := "AWSCURRENT"
  const AWSPENDING: Stage := "AWSPENDING"

  datatype Option<T> = None | Some(value: T)

  /** A version's stage list as the SDK hands it over: a nil slice, or a list (possibly empty). */
  datatype StageList = Nil | List(labels: seq<Stage>)

  /** The labels of a stage list; ranging over a nil slice visits nothing. */
  function LabelsOf(l: StageList): seq<Stage>
  {
    if l.List? then l.labels else []
  }

  /** The service's answer to one request: success, an `awserr.Error` with its code, or any other error. */
  datatype Reply = Ok | AwsError(code: string) | PlainError

  /** One request sent to the service, with the arguments the handler passes. */
  datatype Call =
    | DescribeSecret(secretId: string)
    | GetSecretValue(secretId: string, versionId: Option<VersionId>, stage: Stage)
    | GetRandomPassword(excludeCharacters: string)
    | PutSecretValue(secretId: string, clientRequestToken: VersionId, secretString: string, versionStages: seq<Stage>)
    | UpdateSecretVersionStage(secretId: string, stage: Stage, moveToVersionId: VersionId, removeFromVersionId: VersionId)

  /** The durable state of one secret. */
  datatype Secret = Secret(rotationEnabled: bool, versionStages: map<VersionId, StageList>, values: map<VersionId, string>)

  /** The versions whose stage list is not nil. */
  function Candidates(stages: map<VersionId, StageList>): set<VersionId>
  {
    set v | v in stages && stages[v] != Nil
  }

  /** The versions that carry `stage`. */
  function Holders(stages: map<VersionId, StageList>, stage: Stage): set<VersionId>
  {
    set v | v in stages && stage in LabelsOf(stages[v])
  }

  /** `labels` with every occurrence of `x` taken out, the others kept in order. */
  function Without(labels: seq<Stage>, x: Stage): (r: seq<Stage>)
    ensures forall y :: y in r <==> y in labels && y != x
    ensures |r| <= |labels|
  {
    if labels == [] then []
    else (if labels[0] == x then [] else [labels[0]]) + Without(labels[1..], x)
  }

  /** A stage list that no longer carries `x`; a nil list stays nil. */
  function RemoveStage(l: StageList, x: Stage): (r: StageList)
    ensures x !in LabelsOf(r)
    ensures forall y :: y != x ==> (y in LabelsOf(r) <==> y in LabelsOf(l))
  {
    match l
    case Nil => Nil
    case List(labels) => List(Without(labels, x))
  }

  /** A stage list that carries `x`, put in front when it was missing. */
  function AddStage(l: StageList, x: Stage): (r: StageList)
    ensures x in LabelsOf(r)
    ensures forall y :: y != x ==> (y in LabelsOf(r) <==> y in LabelsOf(l))
  {
    if x in LabelsOf(l) then l else List([x] + LabelsOf(l))
  }

  /**
   * The service's effect of a successful UpdateSecretVersionStage: `stage`
   * leaves `removeFrom` (when that version is listed) and joins `moveTo`.
   */
  function MoveStage(stages: map<VersionId, StageList>, stage: Stage, moveTo: VersionId, removeFrom: VersionId): (r: map<VersionId, StageList>)
    ensures r.Keys == stages.Keys + {moveTo}
    ensures stage in LabelsOf(r[moveTo])
    ensures removeFrom != moveTo && removeFrom in stages ==> stage !in LabelsOf(r[removeFrom])
    ensures forall v :: v in stages && v != moveTo && v != removeFrom ==> r[v] == stages[v]
  {
    var removed := if removeFrom in stages then stages[removeFrom := RemoveStage(stages[removeFrom], stage)] else stages;
    removed[moveTo := AddStage(if moveTo in removed then removed[moveTo] else Nil, stage)]
  }

  /** After a move between two distinct versions, the holders of `stage` lose `removeFrom` and gain `moveTo`. */
  lemma MoveStageHolders(stages: map<VersionId, StageList>, stage: Stage, moveTo: VersionId, removeFrom: VersionId)
    requires moveTo != removeFrom
    ensures Holders(MoveStage(stages, stage, moveTo, removeFrom), stage) == Holders(stages, stage) - {removeFrom} + {moveTo}
  {
    var after := MoveStage(stages, stage, moveTo, removeFrom);
    forall v
      ensures v in Holders(after, stage) <==> v in Holders(stages, stage) - {removeFrom} + {moveTo}
    {
      if v == moveTo {
      } else if v == removeFrom {
        assert v in stages ==> stage !in LabelsOf(after[v]);
      } else if v in stages {
        assert after[v] == stages[v];
      }
    }
  }

  /**
   * The service's effect of a successful PutSecretValue: the version
   * `token` holds `value` and exactly the stages `labels`.
   */
  function PutVersion(s: Secret, token: VersionId, value: string, labels: seq<Stage>): Secret
  {
    s.(versionStages := s.versionStages[token := List(labels)], values := s.values[token := value])
  }

  /**
   * The Secrets Manager client bound to one secret. Each request method
   * appends the request to `calls`, returns the service's answer `reply`
   * (an input: the service decides it), and changes the secret only when
   * the request is a successful put or stage move.
   */
  class SecretsManager {
    var rotationEnabled: bool
    var versionStages: map<VersionId, StageList>
    var values: map<VersionId, string>
    /** Every request sent so far, oldest first. */
    var calls: seq<Call>

    function State(): Secret
      reads this
    {
      Secret(rotationEnabled, versionStages, values)
    }

    constructor (s: Secret)
      ensures State() == s && calls == []
    {
      rotationEnabled, versionStages, values := s.rotationEnabled, s.versionStages, s.values;
      calls := [];
    }

    /** DescribeSecret: on success, the rotation flag and the whole stage map. */
    method DescribeSecret(secretId: string, reply: Reply) returns (err: Reply, enabled: bool, stages: map<VersionId, StageList>)
      modifies this
      ensures calls == old(calls) + [Call.DescribeSecret(secretId)]
      ensures State() == old(State())
      ensures err == reply
      ensures err == Ok ==> enabled == rotationEnabled && stages == versionStages
    {
      calls := calls + [Call.DescribeSecret(secretId)];
      err, enabled, stages := reply, rotationEnabled, versionStages;
    }

    /** GetSecretValue by stage, and by version when `versionId` is given; the value itself is not used. */
    method GetSecretValue(secretId: string, versionId: Option<VersionId>, stage: Stage, reply: Reply) returns (err: Reply)
      modifies this
      ensures calls == old(calls) + [Call.GetSecretValue(secretId, versionId, stage)]
      ensures State() == old(State())
      ensures err == reply
    {
      calls := calls + [Call.GetSecretValue(secretId, versionId, stage)];
      err := reply;
    }

    /** GetRandomPassword: on success, the opaque value `generated`. */
    method GetRandomPassword(excludeCharacters: string, reply: Reply, generated: string) returns (err: Reply, password: string)
      modifies this
      ensures calls == old(calls) + [Call.GetRandomPassword(excludeCharacters)]
      ensures State() == old(State())
      ensures err == reply && password == generated
    {
      calls := calls + [Call.GetRandomPassword(excludeCharacters)];
      err, password := reply, generated;
    }

    /** PutSecretValue: on success, the version `token` is written with `value` and `labels`. */
    method PutSecretValue(secretId: string, token: VersionId, value: string, labels: seq<Stage>, reply: Reply) returns (err: Reply)
      modifies this
      ensures calls == old(calls) + [Call.PutSecretValue(secretId, token, value, labels)]
      ensures err == reply
      ensures State() == if err == Ok then PutVersion(old(State()), token, value, labels) else old(State())
    {
      calls := calls + [Call.PutSecretValue(secretId, token, value, labels)];
      err := reply;
      if err == Ok {
        versionStages := versionStages[token := List(labels)];
        values := values[token := value];
      }
    }

    /** UpdateSecretVersionStage: on success, `stage` moves from `removeFrom` to `moveTo`. */
    method UpdateSecretVersionStage(secretId: string, stage: Stage, moveTo: VersionId, removeFrom: VersionId, reply: Reply) returns (err: Reply)
      modifies this
      ensures calls == old(calls) + [Call.UpdateSecretVersionStage(secretId, stage, moveTo, removeFrom)]
      ensures err == reply
      ensures State() == if err == Ok then old(State()).(versionStages := MoveStage(old(versionStages), stage, moveTo, removeFrom)) else old(State())
    {
      calls := calls + [Call.UpdateSecretVersionStage(secretId, stage, moveTo, removeFrom)];
      err := reply;
      if err == Ok {
        versionStages := MoveStage(versionStages, stage, moveTo, removeFrom);
      }
    }
  }
}
