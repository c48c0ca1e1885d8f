/**
 * finishSecret's scan stops at the first version whose stage list is not
 * nil (main.go:154), not at the version that holds AWSCURRENT, although
 * the comment above it and the log line it prints speak of the current
 * version. This module exhibits what the scan as written allows, and
 * proves of the intended scan that a well-formed secret ends with the
 * token as its only AWSCURRENT version.
 */
module Findings {
  import opened Store
  import opened Rotation

  /** The intended scan's results: it stops at a version that carries AWSCURRENT. */
  predicate FixedScanAllowed(stages: map<VersionId, StageList>, token: VersionId, scan: Scan)
  {
    match scan
    case TokenFirst => token in Holders(stages, AWSCURRENT)
    case Demote(from) =>
      || (from in Holders(stages, AWSCURRENT) && from != token)
      || (Holders(stages, AWSCURRENT) == {} && from == "")
  }

  /** A result the intended scan allows; it stands for the one the visiting order produced. */
  ghost function SomeFixedScan(stages: map<VersionId, StageList>, token: VersionId): (scan: Scan)
    ensures FixedScanAllowed(stages, token, scan)
  {
    if token in Holders(stages, AWSCURRENT) then TokenFirst
    else if Holders(stages, AWSCURRENT) == {} then Demote("")
    else var v :| v in Holders(stages, AWSCURRENT); Demote(v)
  }

  /** The intended scan: visit the versions in any order and stop at the first that carries AWSCURRENT. */
  method ScanForCurrentFixed(stages: map<VersionId, StageList>, token: VersionId) returns (scan: Scan)
    ensures FixedScanAllowed(stages, token, scan)
  {
    var currentVersion := "";
    var unvisited := stages.Keys;
    while unvisited != {}
      invariant unvisited <= stages.Keys
      invariant forall v :: v in stages && v !in unvisited ==> AWSCURRENT !in LabelsOf(stages[v])
      decreases unvisited
    {
      var key :| key in unvisited;
      if AWSCURRENT in LabelsOf(stages[key]) {
        if key == token {
          return TokenFirst;
        }
        currentVersion := key;
        break;
      }
      unvisited := unvisited - {key};
    }
    return Demote(currentVersion);
  }

  /** When exactly one version `h` holds AWSCURRENT, the intended scan finds it, whatever the order. */
  lemma FixedScanFindsTheHolder(stages: map<VersionId, StageList>, token: VersionId, h: VersionId, scan: Scan)
    requires Holders(stages, AWSCURRENT) == {h}
    requires FixedScanAllowed(stages, token, scan)
    ensures scan == if h == token then TokenFirst else Demote(h)
  {
    assert h in Holders(stages, AWSCURRENT);
  }

  /** finishSecret with the intended scan; the requests it sends are those of `FinishRun`. */
  method FinishSecretFixed(svc: SecretsManager, arn: string, token: VersionId, rp: Replies) returns (completed: bool, ghost scan: Scan)
    modifies svc
    ensures FixedScanAllowed(old(svc.versionStages), token, scan)
    ensures var run := FinishRun(old(svc.State()), arn, token, scan, rp);
      completed == run.completed && svc.State() == run.secret && svc.calls == old(svc.calls) + run.calls
  {
    var err, _, stages := svc.DescribeSecret(arn, rp.describeAgain);
    if err != Ok {
      scan := SomeFixedScan(svc.versionStages, token);
      return false, scan;
    }
    var found := ScanForCurrentFixed(stages, token);
    scan := found;
    if found == TokenFirst {
      return true, scan;
    }
    err := svc.UpdateSecretVersionStage(arn, AWSCURRENT, token, found.from, rp.update);
    completed := err == Ok;
  }

  /**
   * With the intended scan, on a secret where exactly one version holds
   * AWSCURRENT, a finishSecret whose requests succeed leaves the token as
   * the only AWSCURRENT version.
   */
  lemma FixedFinishLeavesOneCurrent(s: Secret, arn: string, token: VersionId, h: VersionId, scan: Scan, rp: Replies)
    requires Holders(s.versionStages, AWSCURRENT) == {h}
    requires FixedScanAllowed(s.versionStages, token, scan)
    requires rp.describeAgain == Ok && rp.update == Ok
    ensures var r := FinishRun(s, arn, token, scan, rp);
      r.completed && Holders(r.secret.versionStages, AWSCURRENT) == {token}
  {
    FixedScanFindsTheHolder(s.versionStages, token, h, scan);
    if h != token {
      MoveStageHolders(s.versionStages, AWSCURRENT, token, h);
    }
  }

  /**
   * As written, on {A: [AWSCURRENT], B: [AWSPENDING]} with token B, the scan
   * may visit B first: the invocation then succeeds with no update, and A
   * stays the current version. The intended scan can only stop at A.
   */
  lemma FirstNonNilMaySkipPromotion(rp: Replies)
    requires rp.describe == Ok && rp.describeAgain == Ok
    ensures
      var s := Secret(true, map["A" := List([AWSCURRENT]), "B" := List([AWSPENDING])], map[]);
      var r := HandleRun(s, "arn", "B", FinishStep, rp, TokenFirst);
      && ScanAllowed(s.versionStages, "B", TokenFirst)
      && r.outcome == Success
      && r.calls == [Call.DescribeSecret("arn"), Call.DescribeSecret("arn")]
      && Holders(r.secret.versionStages, AWSCURRENT) == {"A"}
      && (forall scan :: FixedScanAllowed(s.versionStages, "B", scan) ==> scan == Demote("A"))
  {
    var stages := map["A" := List([AWSCURRENT]), "B" := List([AWSPENDING])];
    assert AWSCURRENT != AWSPENDING by { assert AWSCURRENT[4] != AWSPENDING[4]; }
    assert "B" in Candidates(stages);
    assert Holders(stages, AWSCURRENT) == {"A"} by {
      forall v ensures v in Holders(stages, AWSCURRENT) <==> v == "A" {
        if v == "B" {
          assert LabelsOf(stages[v]) == [AWSPENDING];
        }
      }
    }
    forall scan | FixedScanAllowed(stages, "B", scan) ensures scan == Demote("A") {
      FixedScanFindsTheHolder(stages, "B", "A", scan);
    }
  }

  /**
   * As written, on {A: [AWSCURRENT], B: [AWSPENDING], C: [AWSPREVIOUS]} with
   * token B, the scan may stop at C: the one update asks the service to take
   * AWSCURRENT away from C, which does not hold it.
   */
  lemma FirstNonNilMayDemoteWrongVersion(rp: Replies)
    requires rp.describe == Ok && rp.describeAgain == Ok
    ensures
      var stages := map["A" := List([AWSCURRENT]), "B" := List([AWSPENDING]), "C" := List(["AWSPREVIOUS"])];
      var r := HandleRun(Secret(true, stages, map[]), "arn", "B", FinishStep, rp, Demote("C"));
      && ScanAllowed(stages, "B", Demote("C"))
      && r.calls[2] == Call.UpdateSecretVersionStage("arn", AWSCURRENT, "B", "C")
      && "C" !in Holders(stages, AWSCURRENT)
  {
    var stages := map["A" := List([AWSCURRENT]), "B" := List([AWSPENDING]), "C" := List(["AWSPREVIOUS"])];
    assert AWSCURRENT != AWSPENDING by { assert AWSCURRENT[4] != AWSPENDING[4]; }
    assert "AWSPREVIOUS" != AWSCURRENT by { assert "AWSPREVIOUS"[4] != AWSCURRENT[4]; }
    assert "C" in Candidates(stages);
    assert LabelsOf(stages["C"]) == ["AWSPREVIOUS"];
  }
}
