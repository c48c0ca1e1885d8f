/**
 * Properties that relate several invocations, or an invocation to the
 * state of the secret: what a redelivered step does, what the gate
 * guarantees finishSecret's scan, and the rotation of one secret end to end.
 */
module RotationProperties {
  import opened Store
  import opened Rotation

  /**
   * Through the gate the token's own stage list is not nil, so finishSecret's
   * scan always stops at a listed version: either the token, or another
   * version whose list is not nil. The fallback to the empty version id,
   * used when no entry is non-nil, cannot happen.
   */
  lemma GateMakesScanStopAtAVersion(s: Secret, token: VersionId, scan: Scan)
    requires GatePasses(s.rotationEnabled, s.versionStages, token)
    requires ScanAllowed(s.versionStages, token, scan)
    ensures scan == TokenFirst || (scan.from in s.versionStages && s.versionStages[scan.from] != Nil && scan.from != token)
  {
    assert token in Candidates(s.versionStages);
  }

  /**
   * An assumed rule of the service: a GetSecretValue for the token's version
   * staged AWSPENDING succeeds exactly when that version has a value and
   * carries AWSPENDING.
   */
  predicate PendingLookupFaithful(s: Secret, token: VersionId, reply: Reply)
  {
    reply == Ok <==>
      token in s.values && token in s.versionStages && AWSPENDING in LabelsOf(s.versionStages[token])
  }

  /**
   * A createSecret invocation that succeeded, delivered again to a service
   * that answers the pending lookup faithfully: the gate passes again, the
   * service finds the pending value, and the second run only looks it up and
   * changes nothing. When the first run wrote a version, the token holds the
   * generated value staged exactly AWSPENDING.
   */
  lemma CreateSecretRedelivered(s: Secret, arn: string, token: VersionId, rp1: Replies, scan1: Scan, rp2: Replies, scan2: Scan)
    requires HandleRun(s, arn, token, CreateStep, rp1, scan1).outcome == Success
    requires PendingLookupFaithful(s, token, rp1.getPending)
    requires rp2.describe == Ok && rp2.getCurrent == Ok
    requires PendingLookupFaithful(HandleRun(s, arn, token, CreateStep, rp1, scan1).secret, token, rp2.getPending)
    ensures var first := HandleRun(s, arn, token, CreateStep, rp1, scan1);
      |first.calls| == 5 ==>
        && token in first.secret.values && first.secret.values[token] == rp1.password
        && token in first.secret.versionStages && first.secret.versionStages[token] == List([AWSPENDING])
    ensures rp2.getPending == Ok
    ensures var first := HandleRun(s, arn, token, CreateStep, rp1, scan1);
      var second := HandleRun(first.secret, arn, token, CreateStep, rp2, scan2);
      && second.outcome == Success
      && second.secret == first.secret
      && second.calls == [Call.DescribeSecret(arn), Call.GetSecretValue(arn, None, AWSCURRENT), Call.GetSecretValue(arn, Some(token), AWSPENDING)]
  {
    var first := HandleRun(s, arn, token, CreateStep, rp1, scan1);
    assert GatePasses(s.rotationEnabled, s.versionStages, token);
    assert LabelsOf(List([AWSPENDING])) == [AWSPENDING];
    if first.secret == s {
      assert rp1.getPending == Ok;
    } else {
      assert first.secret == PutVersion(s, token, rp1.password, [AWSPENDING]);
    }
    assert GatePasses(first.secret.rotationEnabled, first.secret.versionStages, token);
  }

  /**
   * A finishSecret invocation that succeeded by moving AWSCURRENT to the
   * token (its scan stopped at another version), delivered again with any
   * step: the gate now finds AWSCURRENT on the token and refuses, sending
   * nothing after its DescribeSecret.
   */
  lemma FinishSecretRedelivered(s: Secret, arn: string, token: VersionId, rp1: Replies, scan1: Scan, step: string, rp2: Replies, scan2: Scan)
    requires HandleRun(s, arn, token, FinishStep, rp1, scan1).outcome == Success && scan1.Demote?
    requires rp2.describe == Ok
    ensures var first := HandleRun(s, arn, token, FinishStep, rp1, scan1);
      var second := HandleRun(first.secret, arn, token, step, rp2, scan2);
      && second.outcome == Failure(AlreadyCurrent)
      && second.secret == first.secret
      && second.calls == [Call.DescribeSecret(arn)]
  {
    var first := HandleRun(s, arn, token, FinishStep, rp1, scan1);
    var run := FinishRun(s, arn, token, scan1, rp1);
    assert first.secret == run.secret;
    assert StagingVerdict(first.secret.rotationEnabled, first.secret.versionStages, token) == Some(AlreadyCurrent);
  }

  /**
   * When the scan stops at the one version that holds AWSCURRENT, a
   * finishSecret whose requests succeed leaves the token as the only holder.
   */
  lemma FinishMovesTheOnlyCurrent(s: Secret, arn: string, token: VersionId, scan: Scan, rp: Replies)
    requires scan.Demote? && scan.from != token
    requires Holders(s.versionStages, AWSCURRENT) == {scan.from}
    requires rp.describeAgain == Ok && rp.update == Ok
    ensures var r := FinishRun(s, arn, token, scan, rp);
      r.completed && Holders(r.secret.versionStages, AWSCURRENT) == {token}
  {
    MoveStageHolders(s.versionStages, AWSCURRENT, token, scan.from);
  }

  /**
   * One rotation of secret "db-pwd": v1 is current, v2 is staged pending.
   * createSecret writes the generated value to v2 staged AWSPENDING; its
   * redelivery, which finds that value, is a no-op; finishSecret, with the
   * scan stopping at v1, moves AWSCURRENT from v1 to v2.
   */
  lemma DbPasswordRotation()
    ensures
      var s0 := Secret(true, map["v1" := List([AWSCURRENT]), "v2" := List([AWSPENDING])], map["v1" := "old123"]);
      var rp := Replies(Ok, Ok, AwsError(ResourceNotFound), Ok, "fresh", Ok, Ok, Ok);
      var create := HandleRun(s0, "db-pwd", "v2", CreateStep, rp, TokenFirst);
      var again := HandleRun(create.secret, "db-pwd", "v2", CreateStep, rp.(getPending := Ok), TokenFirst);
      var finish := HandleRun(again.secret, "db-pwd", "v2", FinishStep, rp, Demote("v1"));
      && create.outcome == Success
      && create.calls[1..] == CreateTrace("db-pwd", "v2", "fresh")
      && create.secret.values == map["v1" := "old123", "v2" := "fresh"]
      && again.outcome == Success && again.secret == create.secret
      && ScanAllowed(again.secret.versionStages, "v2", Demote("v1"))
      && finish.outcome == Success
      && finish.secret.versionStages == map["v1" := List([]), "v2" := List([AWSCURRENT, AWSPENDING])]
  {
    var s0 := Secret(true, map["v1" := List([AWSCURRENT]), "v2" := List([AWSPENDING])], map["v1" := "old123"]);
    var rp := Replies(Ok, Ok, AwsError(ResourceNotFound), Ok, "fresh", Ok, Ok, Ok);
    assert AWSCURRENT != AWSPENDING by { assert AWSCURRENT[4] != AWSPENDING[4]; }
    // createSecret: the gate passes and the run writes v2.
    assert GatePasses(s0.rotationEnabled, s0.versionStages, "v2");
    var s1 := PutVersion(s0, "v2", "fresh", [AWSPENDING]);
    assert CreateRun(s0, "db-pwd", "v2", rp) == StepRun(true, s1, CreateTrace("db-pwd", "v2", "fresh"));
    assert s1.versionStages == s0.versionStages;
    // Its redelivery finds the pending value.
    assert CreateRun(s1, "db-pwd", "v2", rp.(getPending := Ok)).secret == s1;
    // finishSecret: the scan may stop at v1, and the move takes AWSCURRENT from v1 to v2.
    var stages := s1.versionStages;
    assert "v1" in Candidates(stages);
    assert Without([AWSCURRENT], AWSCURRENT) == [];
    assert AddStage(List([AWSPENDING]), AWSCURRENT) == List([AWSCURRENT, AWSPENDING]);
    var removed := stages["v1" := RemoveStage(stages["v1"], AWSCURRENT)];
    assert removed == map["v1" := List([]), "v2" := List([AWSPENDING])];
    assert MoveStage(stages, AWSCURRENT, "v2", "v1") == map["v1" := List([]), "v2" := List([AWSCURRENT, AWSPENDING])];
    assert FinishRun(s1, "db-pwd", "v2", Demote("v1"), rp).secret.versionStages == map["v1" := List([]), "v2" := List([AWSCURRENT, AWSPENDING])];
  }
}
