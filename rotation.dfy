/**
 * The rotation handler: the staging gate, the step dispatcher and the
 * step handlers createSecret, setSecret, testSecret and finishSecret.
 *
 * Each handler is a method on the client that issues its requests one by
 * one; each is proved against a function (`CreateRun`, `FinishRun`,
 * `HandleRun`) that gives the outcome, the secret afterwards and the
 * requests sent, and whose contract states what the handler promises.
 */
module Rotation {
  import opened Store

  /** The `awserr` code that createSecret treats as "no pending version yet". */
  const ResourceNotFound: string := "ResourceNotFoundException"

  /** The characters a generated password must not contain: / @ ' " \ */
  const PasswordExclusions: string := "/@'\"\\"

  const CreateStep: string := "createSecret"
  const SetStep: string := "setSecret"
  const TestStep: string := "testSecret"
  const FinishStep: string := "finishSecret"
  const Steps: set<string> := {CreateStep, SetStep, TestStep, FinishStep}

  /** Why an invocation returned an error without running a handler. */
  datatype ErrorKind =
    | DescribeFailed      // the gate's DescribeSecret failed; its error is returned
    | RotationNotEnabled
    | UnknownVersion      // the token has no entry in the stage map
    | AlreadyCurrent      // the token carries AWSCURRENT
    | NotPending          // the token does not carry AWSPENDING
    | InvalidStep

  /** What an invocation ends with: nil, a returned error, or a handler's panic. */
  datatype Outcome = Success | Failure(error: ErrorKind) | Abort

  /** The service's answers to the requests one invocation may send, one per call site. */
  datatype Replies = Replies(
    describe: Reply,        // DescribeSecret in the staging gate
    getCurrent: Reply,      // GetSecretValue of the AWSCURRENT value in createSecret
    getPending: Reply,      // GetSecretValue of (token, AWSPENDING) in createSecret
    randomPassword: Reply,  // GetRandomPassword in createSecret
    password: string,       // the value GetRandomPassword returns when it succeeds
    put: Reply,             // PutSecretValue in createSecret
    describeAgain: Reply,   // DescribeSecret in finishSecret
    update: Reply)          // UpdateSecretVersionStage in finishSecret

  /** A handler's run: whether it returned (rather than panicked), the secret afterwards, the requests sent. */
  datatype StepRun = StepRun(completed: bool, secret: Secret, calls: seq<Call>)

  /** An invocation's run: its outcome, the secret afterwards, the requests sent. */
  datatype Run = Run(outcome: Outcome, secret: Secret, calls: seq<Call>)

  /**
   * What finishSecret's scan of the stage map ends with: the first entry
   * with a non-nil list is the token itself, or the version to take
   * AWSCURRENT from (the empty id when no entry is non-nil).
   */
  datatype Scan = TokenFirst | Demote(from: VersionId)

  // ---------------------------------------------------------------------
  // Staging gate

  /** The gate's verdict, checked in order: rotation enabled, token listed, no AWSCURRENT, AWSPENDING present. */
  function StagingVerdict(enabled: bool, stages: map<VersionId, StageList>, token: VersionId): Option<ErrorKind>
  {
    if !enabled then Some(RotationNotEnabled)
    else if token !in stages then Some(UnknownVersion)
    else if AWSCURRENT in LabelsOf(stages[token]) then Some(AlreadyCurrent)
    else if AWSPENDING !in LabelsOf(stages[token]) then Some(NotPending)
    else None
  }

  /** The token may be rotated: rotation is on, and the token is staged AWSPENDING but not AWSCURRENT. */
  predicate GatePasses(enabled: bool, stages: map<VersionId, StageList>, token: VersionId)
  {
    && enabled
    && token in stages
    && AWSCURRENT !in LabelsOf(stages[token])
    && AWSPENDING in LabelsOf(stages[token])
  }

  /**
   * The gate's checks after a successful DescribeSecret. The loop over the
   * token's labels returns at the first AWSCURRENT and otherwise only notes
   * whether AWSPENDING was seen, so an AWSCURRENT anywhere in the list wins.
   */
  method CheckStaging(enabled: bool, stages: map<VersionId, StageList>, token: VersionId) returns (verdict: Option<ErrorKind>)
    ensures verdict == StagingVerdict(enabled, stages, token)
    ensures verdict == None <==> GatePasses(enabled, stages, token)
  {
    if !enabled {
      return Some(RotationNotEnabled);
    }
    if token !in stages {
      return Some(UnknownVersion);
    }
    var labels := LabelsOf(stages[token]);
    var pending := false;
    for i := 0 to |labels|
      invariant AWSCURRENT !in labels[..i]
      invariant pending <==> AWSPENDING in labels[..i]
    {
      if labels[i] == AWSCURRENT {
        return Some(AlreadyCurrent);
      } else if labels[i] == AWSPENDING {
        pending := true;
      }
    }
    assert labels[..|labels|] == labels;
    if !pending {
      return Some(NotPending);
    }
    return None;
  }

  // ---------------------------------------------------------------------
  // createSecret

  /** The requests createSecret sends when every one of them is needed, in order. */
  function CreateTrace(arn: string, token: VersionId, password: string): seq<Call>
  {
    [ Call.GetSecretValue(arn, None, AWSCURRENT),
      Call.GetSecretValue(arn, Some(token), AWSPENDING),
      Call.GetRandomPassword(PasswordExclusions),
      Call.PutSecretValue(arn, token, password, [AWSPENDING]) ]
  }

  /** A pending-lookup failure that createSecret answers by writing a new version. */
  predicate MustCreate(rp: Replies)
  {
    rp.getPending == AwsError(ResourceNotFound)
  }

  /** createSecret's run on `s`, given the service's answers `rp`. */
  function CreateRun(s: Secret, arn: string, token: VersionId, rp: Replies): (r: StepRun)
    // The requests sent are a prefix of: current lookup, pending lookup, password, put.
    ensures 1 <= |r.calls| && r.calls <= CreateTrace(arn, token, rp.password)
    // No readable AWSCURRENT value: panic before anything else.
    ensures |r.calls| == 1 <==> rp.getCurrent != Ok
    // A pending version exists, or the lookup failed otherwise than ResourceNotFound: stop there.
    ensures |r.calls| == 2 <==> rp.getCurrent == Ok && !MustCreate(rp)
    // A password is generated only after ResourceNotFound, and a put only after the password.
    ensures |r.calls| >= 3 <==> rp.getCurrent == Ok && MustCreate(rp)
    ensures |r.calls| == 4 <==> rp.getCurrent == Ok && MustCreate(rp) && rp.randomPassword == Ok
    // It returns only when the pending value was found or was just written; every other failure panics.
    ensures r.completed <==> rp.getCurrent == Ok && (rp.getPending == Ok || (MustCreate(rp) && rp.randomPassword == Ok && rp.put == Ok))
    // The one change it can make: the token's version written with the new value, staged exactly AWSPENDING.
    ensures r.secret != s ==> r.completed && |r.calls| == 4
    ensures r.secret == if |r.calls| == 4 && rp.put == Ok then PutVersion(s, token, rp.password, [AWSPENDING]) else s
  {
    var trace := CreateTrace(arn, token, rp.password);
    if rp.getCurrent != Ok then StepRun(false, s, trace[..1])
    else if rp.getPending == Ok then StepRun(true, s, trace[..2])
    else if !rp.getPending.AwsError? || rp.getPending.code != ResourceNotFound then StepRun(false, s, trace[..2])
    else if rp.randomPassword != Ok then StepRun(false, s, trace[..3])
    else if rp.put != Ok then StepRun(false, s, trace)
    else StepRun(true, PutVersion(s, token, rp.password, [AWSPENDING]), trace)
  }

  /** createSecret: make sure a pending value exists for `token`, writing one if the service has none. */
  method CreateSecret(svc: SecretsManager, arn: string, token: VersionId, rp: Replies) returns (completed: bool)
    modifies svc
    ensures var run := CreateRun(old(svc.State()), arn, token, rp);
      completed == run.completed && svc.State() == run.secret && svc.calls == old(svc.calls) + run.calls
  {
    var err := svc.GetSecretValue(arn, None, AWSCURRENT, rp.getCurrent);
    if err != Ok {
      return false;
    }
    err := svc.GetSecretValue(arn, Some(token), AWSPENDING, rp.getPending);
    if err != Ok {
      if err.AwsError? {
        if err.code != ResourceNotFound {
          return false;
        }
        var passwordErr, password := svc.GetRandomPassword(PasswordExclusions, rp.randomPassword, rp.password);
        if passwordErr != Ok {
          return false;
        }
        err := svc.PutSecretValue(arn, token, password, [AWSPENDING], rp.put);
        if err != Ok {
          return false;
        }
      } else {
        return false;
      }
    }
    return true;
  }

  // ---------------------------------------------------------------------
  // setSecret and testSecret

  /** setSecret is not implemented: it always panics and sends nothing. */
  method SetSecret(svc: SecretsManager, arn: string, token: VersionId) returns (completed: bool)
    ensures !completed
  {
    completed := false;
  }

  /** testSecret is not implemented: it always panics and sends nothing. */
  method TestSecret(svc: SecretsManager, arn: string, token: VersionId) returns (completed: bool)
    ensures !completed
  {
    completed := false;
  }

  // ---------------------------------------------------------------------
  // finishSecret

  /**
   * The results finishSecret's scan can have, whatever order the map is
   * visited in: the first entry with a non-nil stage list decides, whether
   * or not it carries AWSCURRENT.
   */
  predicate ScanAllowed(stages: map<VersionId, StageList>, token: VersionId, scan: Scan)
  {
    match scan
    case TokenFirst => token in Candidates(stages)
    case Demote(from) =>
      || (from in Candidates(stages) && from != token)
      || (Candidates(stages) == {} && from == "")
  }

  /** A scan result the map allows; it stands for the one the visiting order produced. */
  ghost function SomeScan(stages: map<VersionId, StageList>, token: VersionId): (scan: Scan)
    ensures ScanAllowed(stages, token, scan)
  {
    if token in Candidates(stages) then TokenFirst
    else if Candidates(stages) == {} then Demote("")
    else var v :| v in Candidates(stages); Demote(v)
  }

  /**
   * finishSecret's scan: visit the versions in an order the model does not
   * fix, stop at the first whose stage list is not nil, and report whether
   * it is the token or which version it is.
   */
  method ScanForCurrent(stages: map<VersionId, StageList>, token: VersionId) returns (scan: Scan)
    ensures ScanAllowed(stages, token, scan)
  {
    var currentVersion := "";
    var unvisited := stages.Keys;
    while unvisited != {}
      invariant unvisited <= stages.Keys
      invariant forall v :: v in stages && v !in unvisited ==> stages[v] == Nil
      decreases unvisited
    {
      var key :| key in unvisited;
      if stages[key] != Nil {
        if key == token {
          return TokenFirst;
        }
        currentVersion := key;
        break;
      }
      unvisited := unvisited - {key};
    }
    return Demote(currentVersion);
  }

  /** finishSecret's run on `s` for the scan result `scan`, given the service's answers `rp`. */
  function FinishRun(s: Secret, arn: string, token: VersionId, scan: Scan, rp: Replies): (r: StepRun)
    // It always starts by describing the secret; a failure there panics.
    ensures 1 <= |r.calls| && r.calls[0] == Call.DescribeSecret(arn)
    ensures rp.describeAgain != Ok ==> !r.completed && |r.calls| == 1 && r.secret == s
    // The token came first: return with no update at all.
    ensures rp.describeAgain == Ok && scan == TokenFirst ==> r.completed && |r.calls| == 1 && r.secret == s
    // Otherwise exactly one update: AWSCURRENT to the token, away from the scanned version.
    ensures rp.describeAgain == Ok && scan.Demote? ==>
      && r.calls == [Call.DescribeSecret(arn), Call.UpdateSecretVersionStage(arn, AWSCURRENT, token, scan.from)]
      && (r.completed <==> rp.update == Ok)
    // A successful update is the service's stage move and nothing else; in every other case nothing changes.
    ensures rp.describeAgain == Ok && scan.Demote? && rp.update == Ok ==>
      r.secret == s.(versionStages := MoveStage(s.versionStages, AWSCURRENT, token, scan.from))
    ensures !(rp.describeAgain == Ok && scan.Demote? && rp.update == Ok) ==> r.secret == s
    // Whenever the secret changed, the token now carries AWSCURRENT and the scanned version does not.
    ensures r.secret != s ==> r.completed && scan.Demote? && r.secret.rotationEnabled == s.rotationEnabled
    ensures r.secret != s ==> token in r.secret.versionStages && AWSCURRENT in LabelsOf(r.secret.versionStages[token])
    ensures r.secret != s ==> r.secret.versionStages.Keys == s.versionStages.Keys + {token}
    ensures r.secret != s && scan.from != token && scan.from in r.secret.versionStages ==> AWSCURRENT !in LabelsOf(r.secret.versionStages[scan.from])
  {
    var describe := [Call.DescribeSecret(arn)];
    if rp.describeAgain != Ok then StepRun(false, s, describe)
    else match scan
      case TokenFirst => StepRun(true, s, describe)
      case Demote(from) =>
        var calls := describe + [Call.UpdateSecretVersionStage(arn, AWSCURRENT, token, from)];
        if rp.update != Ok then StepRun(false, s, calls)
        else StepRun(true, s.(versionStages := MoveStage(s.versionStages, AWSCURRENT, token, from)), calls)
  }

  /** finishSecret: move AWSCURRENT to `token` from the version the scan stops at. */
  method FinishSecret(svc: SecretsManager, arn: string, token: VersionId, rp: Replies) returns (completed: bool, ghost scan: Scan)
    modifies svc
    ensures ScanAllowed(old(svc.versionStages), token, scan)
    ensures var run := FinishRun(old(svc.State()), arn, token, scan, rp);
      completed == run.completed && svc.State() == run.secret && svc.calls == old(svc.calls) + run.calls
  {
    var err, _, stages := svc.DescribeSecret(arn, rp.describeAgain);
    if err != Ok {
      scan := SomeScan(svc.versionStages, token);
      return false, scan;
    }
    var found := ScanForCurrent(stages, token);
    scan := found;
    if found == TokenFirst {
      return true, scan;
    }
    err := svc.UpdateSecretVersionStage(arn, AWSCURRENT, token, found.from, rp.update);
    completed := err == Ok;
  }

  // ---------------------------------------------------------------------
  // HandleRequest: the gate, then the dispatcher

  /** Lifts a handler's run into the invocation's run, after the gate's DescribeSecret. */
  function AfterGate(arn: string, step: StepRun): Run
  {
    Run(if step.completed then Success else Abort, step.secret, [Call.DescribeSecret(arn)] + step.calls)
  }

  /** One invocation (token, secret id, step) on `s`, for the scan result `scan` and the service's answers `rp`. */
  function HandleRun(s: Secret, arn: string, token: VersionId, step: string, rp: Replies, scan: Scan): (r: Run)
    // Every invocation starts with the gate's DescribeSecret.
    ensures 1 <= |r.calls| && r.calls[0] == Call.DescribeSecret(arn)
    // The gate fails in a fixed order, each time before any handler runs and before any change.
    ensures r.outcome.Failure? ==> r.calls == [Call.DescribeSecret(arn)] && r.secret == s
    ensures r.outcome == Failure(DescribeFailed) <==> rp.describe != Ok
    ensures rp.describe == Ok && StagingVerdict(s.rotationEnabled, s.versionStages, token).Some? ==>
      r.outcome == Failure(StagingVerdict(s.rotationEnabled, s.versionStages, token).value)
    // The dispatcher is reached only through the gate, and an unknown step runs no handler.
    ensures r.outcome == Failure(InvalidStep) <==> rp.describe == Ok && GatePasses(s.rotationEnabled, s.versionStages, token) && step !in Steps
    ensures !r.outcome.Failure? ==> rp.describe == Ok && GatePasses(s.rotationEnabled, s.versionStages, token) && step in Steps
    // setSecret and testSecret always abort; only createSecret and finishSecret can succeed.
    ensures rp.describe == Ok && GatePasses(s.rotationEnabled, s.versionStages, token) && (step == SetStep || step == TestStep) ==> r.outcome == Abort
    ensures r.outcome == Success ==> step == CreateStep || step == FinishStep
    // Through the gate, createSecret and finishSecret run as their own runs say: the invocation
    // succeeds exactly when the handler completes (and aborts otherwise), sends the handler's
    // requests after the gate's DescribeSecret, and leaves the secret as the handler leaves it.
    ensures rp.describe == Ok && GatePasses(s.rotationEnabled, s.versionStages, token) && step == CreateStep ==>
      var run := CreateRun(s, arn, token, rp);
      && (r.outcome == Success <==> run.completed) && (r.outcome != Success ==> r.outcome == Abort)
      && r.calls[1..] == run.calls && r.secret == run.secret
    ensures rp.describe == Ok && GatePasses(s.rotationEnabled, s.versionStages, token) && step == FinishStep ==>
      var run := FinishRun(s, arn, token, scan, rp);
      && (r.outcome == Success <==> run.completed) && (r.outcome != Success ==> r.outcome == Abort)
      && r.calls[1..] == run.calls && r.secret == run.secret
    // setSecret and testSecret send nothing after the gate and change nothing.
    ensures rp.describe == Ok && GatePasses(s.rotationEnabled, s.versionStages, token) && (step == SetStep || step == TestStep) ==>
      r.calls == [Call.DescribeSecret(arn)] && r.secret == s
    // The secret changes only in an invocation that succeeds.
    ensures r.secret != s ==> r.outcome == Success
  {
    var describe := [Call.DescribeSecret(arn)];
    if rp.describe != Ok then Run(Failure(DescribeFailed), s, describe)
    else match StagingVerdict(s.rotationEnabled, s.versionStages, token)
      case Some(e) => Run(Failure(e), s, describe)
      case None =>
        if step == CreateStep then AfterGate(arn, CreateRun(s, arn, token, rp))
        else if step == SetStep || step == TestStep then Run(Abort, s, describe)
        else if step == FinishStep then AfterGate(arn, FinishRun(s, arn, token, scan, rp))
        else Run(Failure(InvalidStep), s, describe)
  }

  /**
   * HandleRequest: describe the secret, run the staging gate, then dispatch
   * on the exact step name. A handler's panic ends the invocation as `Abort`.
   */
  method HandleRequest(svc: SecretsManager, arn: string, token: VersionId, step: string, rp: Replies) returns (outcome: Outcome, ghost scan: Scan)
    modifies svc
    ensures ScanAllowed(old(svc.versionStages), token, scan)
    ensures var run := HandleRun(old(svc.State()), arn, token, step, rp, scan);
      outcome == run.outcome && svc.State() == run.secret && svc.calls == old(svc.calls) + run.calls
  {
    var err, enabled, stages := svc.DescribeSecret(arn, rp.describe);
    scan := SomeScan(svc.versionStages, token);
    if err != Ok {
      return Failure(DescribeFailed), scan;
    }
    var verdict := CheckStaging(enabled, stages, token);
    if verdict.Some? {
      return Failure(verdict.value), scan;
    }
    var completed: bool;
    if step == CreateStep {
      completed := CreateSecret(svc, arn, token, rp);
    } else if step == SetStep {
      completed := SetSecret(svc, arn, token);
    } else if step == TestStep {
      completed := TestSecret(svc, arn, token);
    } else if step == FinishStep {
      completed, scan := FinishSecret(svc, arn, token, rp);
    } else {
      return Failure(InvalidStep), scan;
    }
    outcome := if completed then Success else Abort;
  }
}
