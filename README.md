# Secrets Manager rotation handler, modelled in Dafny

This project models the rotation handler in `main.go`. AWS Secrets Manager invokes it with a
client request token (the version id to promote), a secret id and one of four step names.
The handler works in three parts:

- **Staging gate.** It describes the secret. It refuses the invocation if rotation is
  disabled, if the token has no entry in the version-to-stages map, if the token already
  carries `AWSCURRENT` (anywhere in its list), or if the token does not carry `AWSPENDING`.
- **Dispatcher.** It runs the handler whose name matches the step exactly, and returns an
  error for any other name.
- **Handlers.** `createSecret` writes a fresh password to the token's version, staged
  `AWSPENDING`, unless a pending value already exists. `finishSecret` moves `AWSCURRENT` to
  the token. `setSecret` and `testSecret` are unimplemented and panic.

The model has four modules:

- `Store` (store.dfy) holds the secret as data. A `Secret` is the rotation flag, the map from
  version id to stage list and the version values. A stage list is `Nil` or `List(labels)`,
  so Go's nil test can be expressed. The class `SecretsManager` is the client: one method per
  request, each appending the request to the `calls` log. The service's answer to each
  request is an input (`Reply`: `Ok`, `AwsError(code)` or `PlainError`). A successful put or
  stage move changes the secret through `PutVersion` and `MoveStage`. These are an assumed,
  minimal service semantics.
- `Rotation` (rotation.dfy) holds the handler. Each handler is an imperative module-level
  method that takes the client (`SecretsManager`) as a parameter, as the Go functions take
  the SDK client. Each is proved against a function that gives its outcome, the secret
  afterwards and the exact requests it sent: `CreateRun`, `FinishRun` and `HandleRun`.
  `HandleRun` links each dispatched step to its handler's function. `Replies` holds the
  service's answers for one invocation, one field per call site.
- `RotationProperties` (properties.dfy) holds properties across invocations: redelivery of a
  step, and one full rotation.
- `Findings` (findings.dfy) shows a defect in finishSecret's scan and proves the corrected
  scan correct.

A panic is the outcome `Abort`. A returned error is `Failure(kind)`, with an `ErrorKind`
instead of the message text. Go's map iteration order is not fixed. finishSecret's scan
therefore has a result `Scan` that may be any result the map allows (`ScanAllowed`). The
methods return the result that happened as a ghost out-parameter.

Where this code departs from the usual description of the rotation protocol, the model
follows the code:

- Calling finishSecret for a token that already carries `AWSCURRENT` does not end as a
  successful no-op. The gate refuses it first with `AlreadyCurrent`
  (`RotationProperties.FinishSecretRedelivered`).
- finishSecret does not look for the version that carries `AWSCURRENT`. It stops at the first
  version whose stage list is not nil (see Findings).
- createSecret runs only after the gate has passed. So the token must already be listed and
  staged `AWSPENDING` before the first createSecret.

## Model

| member | source | states |
|---|---|---|
| Rotation.CheckStaging | main.go:40-58 | The gate's verdict is the first failing check, in this order: rotation disabled, token not in the map, `AWSCURRENT` anywhere in the token's list (even after `AWSPENDING`), no `AWSPENDING`. It is `None` exactly when the token may be rotated. The loop that returns at the first `AWSCURRENT` agrees with that order-free definition. |
| Rotation.HandleRun | main.go:25-74 | Every invocation starts with one DescribeSecret. A Describe error is returned first, then the gate's verdict. Each failure happens after that single request and before any handler or change. `InvalidStep` happens exactly when the gate passes and the step is not one of the four names. The dispatcher is reached only through the gate. Through the gate, createSecret and finishSecret run as `CreateRun` and `FinishRun` say. The invocation succeeds exactly when the handler completes and aborts otherwise. It sends the handler's requests after the gate's DescribeSecret and leaves the secret as the handler does. setSecret and testSecret always abort, sending nothing after the gate and changing nothing. Only createSecret and finishSecret can succeed. The secret changes only in an invocation that succeeds. |
| Rotation.HandleRequest | main.go:25-74 | The imperative handler sends exactly the requests of `HandleRun`, in order. It leaves the secret as `HandleRun` says and returns its outcome, for the scan result that the map order produced. |
| Rotation.CreateRun | main.go:78-128 | The requests sent are a prefix of: current lookup, pending lookup for (token, `AWSPENDING`), `GetRandomPassword` with exclusions `/@'"\`, `PutSecretValue` of the token with that password staged exactly `[AWSPENDING]`. A failed current lookup stops before anything else. A found pending value stops after the lookup with no change. The password is requested only after `ResourceNotFoundException`. The put is sent only after the password succeeds. The run completes only if the pending value was found or was just written; every other failure panics. The only change it can make is that put. |
| Rotation.CreateSecret | main.go:78-128 | The imperative createSecret sends exactly `CreateRun`'s requests, and leaves the secret and returns as `CreateRun` says. |
| Rotation.SetSecret | main.go:132-134 | Always panics. |
| Rotation.TestSecret | main.go:139-141 | Always panics. |
| Rotation.ScanForCurrent | main.go:152-162 | Visiting the map in an unfixed order, the scan reports one of: the token, if its list is non-nil; another version with a non-nil list; or the empty id, only when no list is non-nil. Whether the version carries `AWSCURRENT` plays no part. |
| Rotation.FinishRun | main.go:143-176 | finishSecret always describes first, and a failure there panics. If the token came first, it returns with no update and no change. Otherwise it sends exactly one `UpdateSecretVersionStage(AWSCURRENT, moveTo = token, removeFrom = scanned version)` and completes exactly when that succeeds. A successful update changes the secret by exactly the service's stage move of `AWSCURRENT` to the token from the scanned version. In every other case the secret is unchanged. Whenever the secret changed, the token carries `AWSCURRENT` and the scanned version does not. |
| Rotation.FinishSecret | main.go:143-176 | The imperative finishSecret sends exactly `FinishRun`'s requests for the scan result it found, and leaves the secret as `FinishRun` says. |
| RotationProperties.GateMakesScanStopAtAVersion | main.go:152-162 | Through the gate, the token's own list is non-nil. So the scan stops at the token or at another listed version with a non-nil list. The fallback for a scan that finds no non-nil list, where `currentVersion` keeps its initial empty value, is never used. |
| RotationProperties.CreateSecretRedelivered | main.go:89-96 | After a successful createSecret, a redelivery passes the gate again. The service answers the pending lookup faithfully (`PendingLookupFaithful`: found exactly when the token has a value and carries `AWSPENDING`). It therefore finds the pending value, and the redelivery only looks it up and changes nothing. If a put happened, the token holds the generated value staged exactly `AWSPENDING`. |
| RotationProperties.FinishSecretRedelivered | main.go:48-51 | After a finishSecret that succeeded with its scan stopping at another version, so that it moved `AWSCURRENT`, every redelivery for that token, with any step, is refused as `AlreadyCurrent` after one DescribeSecret. |
| RotationProperties.FinishMovesTheOnlyCurrent | main.go:164-170 | When the scan stops at the only `AWSCURRENT` version and both requests succeed, the token becomes the only `AWSCURRENT` version. |
| RotationProperties.DbPasswordRotation | main.go:25-176 | One rotation of "db-pwd" (v1 current, v2 pending). createSecret writes the generated value to v2. Its redelivery is a no-op. finishSecret, scanning v1 first, ends with v1 holding no stages and v2 holding `[AWSCURRENT, AWSPENDING]`. |
| Findings.FirstNonNilMaySkipPromotion | main.go:153-158 | As written, on {A: [AWSCURRENT], B: [AWSPENDING]} with token B, the scan may visit B first. The invocation then succeeds with two Describes and no update, and A stays the only current version. |
| Findings.FirstNonNilMayDemoteWrongVersion | main.go:153-170 | As written, with a third version C: [AWSPREVIOUS], the scan may stop at C. The one update then asks to take `AWSCURRENT` from C, which does not hold it. |
| Findings.ScanForCurrentFixed | main.go:152-162 | The intended scan stops at a version that carries `AWSCURRENT`. It reports the token if the token carries it, otherwise that version, and the empty id only if no version carries it. |
| Findings.FixedScanFindsTheHolder | main.go:152-162 | With exactly one `AWSCURRENT` version h, the intended scan yields the token if h is the token, and h otherwise, whatever the visiting order. |
| Findings.FinishSecretFixed | main.go:143-176 | finishSecret with the intended scan sends `FinishRun`'s requests for that scan's result. |
| Findings.FixedFinishLeavesOneCurrent | main.go:143-176 | With the intended scan, on a secret with exactly one `AWSCURRENT` version and successful requests, the token ends as the only `AWSCURRENT` version. |
| Store.SecretsManager.DescribeSecret | main.go:30-34 | Logs one DescribeSecret. On success it returns the rotation flag and the whole stage map, and changes nothing. |
| Store.SecretsManager.GetSecretValue | main.go:81-95 | Logs one GetSecretValue with the secret id, the optional version id and the stage, and changes nothing. |
| Store.SecretsManager.GetRandomPassword | main.go:103-106 | Logs one GetRandomPassword with the exclusion set and returns the service's opaque value. |
| Store.SecretsManager.PutSecretValue | main.go:112-117 | Logs one PutSecretValue. On success the token's version holds the value and exactly the given stages. |
| Store.SecretsManager.UpdateSecretVersionStage | main.go:165-170 | Logs one UpdateSecretVersionStage. On success the stage leaves the remove-from version and joins the move-to version. |

## Left out

- Session and client construction, `lambda.Start` and the `context` argument (main.go:21-27) are runtime plumbing. The client is the `SecretsManager` object passed in.
- The service's own behaviour is not modelled. Its answer to each request is an input (`Replies`). The effect of a successful put or stage move is an assumed minimal semantics (`PutVersion`, `MoveStage`). The redelivery property also assumes the pending lookup answers faithfully (`PendingLookupFaithful`). The model does not enforce one `AWSPENDING` per secret, does not make the swap atomic, and does not reject a move from a version that lacks the stage.
- The model's client is bound to one secret. The secret id is recorded in every request but never compared with another secret.
- The random password is an opaque string from the service's answer. Only the exclusion set passed to GetRandomPassword is modelled.
- `log.Printf` output and the error message texts are left out. Errors are an `ErrorKind`. A Describe failure in the gate is `DescribeFailed`, not the SDK's error value.
- Nil pointers are assumed absent: the event's `Token`, `Arn` and `Step`, the response's `RotationEnabled`, and a nil entry in a stage list. Go would panic on dereferencing any of them.
- The value returned by GetSecretValue is not modelled. The handler only tests whether the lookup succeeded.
- The downstream work that setSecret and testSecret would do is not modelled. The source only panics there.
- Go's map iteration order is not modelled. finishSecret's scan is any result the map allows.
- Concurrent invocations and the scheduler's ordering of steps are not modelled. Each invocation is one sequential run.

## Findings

| source | as written | input that shows it | evidently intended | confidence | as-written member | corrected member |
|---|---|---|---|---|---|---|
| main.go:153-162 | finishSecret stops at the first version whose stage list is non-nil, then returns if that version is the token | {A: [AWSCURRENT], B: [AWSPENDING]}, token B, map order visits B first: success with no update, B never becomes current | stop at the version that carries `AWSCURRENT` (the comment at main.go:144 and the log at main.go:156 say so) | high; not executed | Findings.FirstNonNilMaySkipPromotion | Findings.FixedFinishLeavesOneCurrent |
| main.go:153-170 | the version it stops at is sent as `RemoveFromVersionId` whether or not it holds `AWSCURRENT` | {A: [AWSCURRENT], B: [AWSPENDING], C: [AWSPREVIOUS]}, token B, map order visits C first: update asks to remove `AWSCURRENT` from C | remove `AWSCURRENT` from the version that holds it | high; not executed | Findings.FirstNonNilMayDemoteWrongVersion | Findings.ScanForCurrentFixed |

The dispatcher model (`Rotation.HandleRequest`) keeps the scan as written, so that it matches
`main.go`. `Findings.FinishSecretFixed` is the corrected finishSecret. It shares `FinishRun`
with the as-written handler and differs only in which version the scan stops at.
