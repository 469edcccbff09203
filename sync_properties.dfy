/**
 * Properties that relate several cycles of the synchronizer: a successful cycle leaves
 * nothing to send, a failed cycle is retried, and two concrete scenarios.
 */
module SyncProperties {
  import opened Wrappers
  import opened Strings
  import opened Installations
  import opened SyncSpec

  /**
   * The staged snapshot is absent or is the snapshot of the current readings. A snapshot staged
   * for other readings and not replaced by staging is committed by the next success and then
   * differs from the readings (`StaleStagedSnapshotUnsettles`).
   */
  predicate StagedMatches(s: Prefs, device: SystemData) {
    s.unreportedSystemData.None? || s.unreportedSystemData == Some(Snapshot(s.reportSystemInfo, device))
  }

  /**
   * Idempotence: after a sync that made no call, or that succeeded with the snapshot it had
   * staged being that of the readings, a second sync with the same readings decides to do nothing.
   */
  lemma SyncSettles(s: Prefs, device: SystemData, env: Env, onCreate: CreateOutcome, onPatch: PatchOutcome)
    requires || SyncCycle(s, device, env, onCreate, onPatch).call.NoCall?
             || (SyncCycle(s, device, env, onCreate, onPatch).reply.OnSuccess?
                 && StagedMatches(PlanSync(s, device, env).staged, device))
    ensures PlanSync(SyncCycle(s, device, env, onCreate, onPatch).state, device, env).decision == DoNothing
  {
    var p := PlanSync(s, device, env);
    var r := SyncCycle(s, device, env, onCreate, onPatch);
    var snap := Snapshot(s.reportSystemInfo, device);
    match p.decision
    case DoNothing =>
      assert r.state == p.staged;
      if s.pushRegId.Some? {
        assert ReportableSystemData(s, device, env).None?;
        assert r.state == s;
      }
    case DoCreate =>
      assert p.staged.unreportedSystemData.None? || p.staged.unreportedSystemData == Some(snap);
      assert r.state.reportedSystemDataHash == env.hashOf(snap);
      assert AllReported(r.state);
    case DoPatch =>
      assert p.staged.unreportedSystemData.None? || p.staged.unreportedSystemData == Some(snap);
      assert OwnDevice(p.delta, p.staged.pushRegId);
      assert r.state == CommitOwn(p.staged, p.delta, env);
      assert r.state.reportedSystemDataHash == env.hashOf(snap);
  }

  /**
   * The case `SyncSettles` leaves out does not settle: with a snapshot staged for other readings,
   * readings whose hash is the reported one and a fresh token, a successful patch records the
   * hash of the stale snapshot, and the next sync with the same readings patches again.
   */
  lemma StaleStagedSnapshotUnsettles(s: Prefs, device: SystemData, env: Env, onCreate: CreateOutcome)
    requires s.pushRegId.Some? && IsNotBlank(s.cloudToken) && !s.cloudTokenReported
    requires s.reportedSystemDataHash == env.hashOf(Snapshot(s.reportSystemInfo, device))
    requires s.unreportedSystemData.Some? && env.hashOf(s.unreportedSystemData.value) != s.reportedSystemDataHash
    ensures var r := SyncCycle(s, device, env, onCreate, Patched);
            && r.call.PatchCall? && r.reply.OnSuccess?
            && PlanSync(r.state, device, env).decision == DoPatch
  {
    assert TokenPresentAndUnreported(s);
    assert ReportableSystemData(s, device, env).None?;
    var p := PlanSync(s, device, env);
    assert p.staged == s;
    var r := SyncCycle(s, device, env, onCreate, Patched);
    assert r.state == CommitOwn(s, p.delta, env);
    assert r.state.reportedSystemDataHash == env.hashOf(s.unreportedSystemData.value);
    assert ReportableSystemData(r.state, device, env).Some?;
  }

  /**
   * A create that failed or returned no record is retried by the next sync with the same
   * readings: the same request again, from the preferences the failure left.
   */
  lemma FailedCreateRetried(s: Prefs, device: SystemData, env: Env, onCreate: CreateOutcome, onPatch: PatchOutcome)
    requires !onCreate.Created?
    requires SyncCycle(s, device, env, onCreate, onPatch).call.CreateCall?
    ensures var r := SyncCycle(s, device, env, onCreate, onPatch);
            PlanSync(r.state, device, env) == Plan(r.state, PlanSync(s, device, env).delta, DoCreate)
  {
    var p := PlanSync(s, device, env);
    var r := SyncCycle(s, device, env, onCreate, onPatch);
    assert r.state == p.staged;
    assert ReportableSystemData(r.state, device, env) == ReportableSystemData(s, device, env);
  }

  /**
   * A failed patch is retried by the next sync with the same readings: every field again and,
   * because the failure marks the token unreported, the token too whenever it is not blank.
   */
  lemma FailedPatchRetried(s: Prefs, device: SystemData, env: Env, onCreate: CreateOutcome, e: string)
    requires SyncCycle(s, device, env, onCreate, PatchFailed(e)).call.PatchCall?
    ensures var r := SyncCycle(s, device, env, onCreate, PatchFailed(e));
            var prev := PlanSync(s, device, env).delta;
            PlanSync(r.state, device, env) ==
              Plan(r.state,
                   if IsNotBlank(s.cloudToken) then prev.(pushServiceToken := s.cloudToken) else prev,
                   DoPatch)
  {
    var p := PlanSync(s, device, env);
    var r := SyncCycle(s, device, env, onCreate, PatchFailed(e));
    var sys := ReportableSystemData(s, device, env);
    assert r.state == Rollback(p.staged);
    assert ReportableSystemData(r.state, device, env) == sys;
    assert StageSystemData(r.state, sys) == r.state;
    PendingDeltaAfterRollback(p.staged, sys, env);
  }

  /** Pending data marks the token unreported: the same delta, plus the token if it is not blank. */
  lemma PendingDeltaAfterRollback(s: Prefs, sys: Option<SystemData>, env: Env)
    requires HasDataToReport(PendingDelta(s, sys, env))
    ensures PendingDelta(Rollback(s), sys, env) ==
              if IsNotBlank(s.cloudToken) then PendingDelta(s, sys, env).(pushServiceToken := s.cloudToken)
              else PendingDelta(s, sys, env)
  {
    var d := PendingDelta(s, sys, env);
    var d' := PendingDelta(Rollback(s), sys, env);
    assert HasDataToReport(d');
  }

  /**
   * Scenario: no identity, a fresh token "T1" and the service type unreported, every other
   * marker reported and the readings already reported. The sync creates with the token, the
   * service type and the registration flag; a record returned with "ID1" becomes the identity and the token is reported.
   */
  lemma CreateScenario(s: Prefs, device: SystemData, env: Env, returned: Installation, onPatch: PatchOutcome)
    requires s.pushRegId == None && s.cloudToken == Some("T1") && !s.cloudTokenReported
    requires !s.pushServiceTypeReported && s.applicationUserIdReported && s.unreportedPrimary.None?
    requires s.regEnabled
    requires s.reportedSystemDataHash == env.hashOf(Snapshot(s.reportSystemInfo, device))
    requires returned.pushRegId == Some("ID1")
    ensures var r := SyncCycle(s, device, env, Created(returned), onPatch);
            && r.call == CreateCall(Empty.(pushServiceToken := Some("T1"),
                                           pushServiceType := Some(env.pushServiceType),
                                           regEnabled := Some(true)))
            && r.reply == OnSuccess(returned)
            && r.state.pushRegId == Some("ID1")
            && r.state.cloudTokenReported
  {
    assert IsWhitespace('T') == false;
    assert TokenPresentAndUnreported(s);
    assert ReportableSystemData(s, device, env).None?;
  }

  /**
   * Scenario: the local device is "ID1" with an unreported primary setting, and "ID2" is made
   * primary. One patch addresses "ID2" with the primary flag only; on success the local marker
   * is removed and the local device is saved as not primary, nothing else changing.
   */
  lemma ForeignPrimaryScenario(s: Prefs, env: Env)
    requires s.pushRegId == Some("ID1") && s.unreportedPrimary == Some(true)
    ensures var r := PatchCycle(s, PrimaryDelta(Some("ID2"), true), Patched, env);
            && r.call == PatchCall(Some("ID2"), Empty.(pushRegId := Some("ID2"), primary := Some(true)))
            && r.reply.OnSuccess?
            && r.state == s.(unreportedPrimary := None, primary := false)
  {
    var d := PrimaryDelta(Some("ID2"), true);
    assert d.pushRegId == Some("ID2");
    assert !OwnDevice(d, s.pushRegId);
  }

  // ---------------------------------------------------------------- markers set without sending

  /**
   * A successful patch of the local device marks the token and the application user id
   * reported whether or not the delta carried them. After an attribute update, say, a fresh
   * token reads as reported though it was never sent, and the next sync does not send it.
   */
  lemma SuccessMarksUnsentFieldsReported(s: Prefs, d: Installation, env: Env)
    requires s.pushRegId.Some? && OwnDevice(d, s.pushRegId)
    requires d.pushServiceToken.None? && d.applicationUserId.None?
    ensures var r := PatchCycle(s, d, Patched, env);
            && r.call == PatchCall(s.pushRegId, d)
            && r.state.cloudTokenReported && r.state.applicationUserIdReported
            && !TokenPresentAndUnreported(r.state)
  {
    assert PatchCycle(s, d, Patched, env).state == CommitOwn(s, d, env);
  }

  /** The instance of the above for `updateCustomAttributes` with a fresh token pending. */
  lemma AttributeUpdateMarksFreshTokenReported(s: Prefs, atts: CustomAttributes, env: Env)
    requires s.pushRegId.Some? && TokenPresentAndUnreported(s)
    ensures var r := PatchCycle(s, CustomAttributesDelta(atts), Patched, env);
            && r.call.PatchCall? && r.call.payload.pushServiceToken.None?
            && r.state.cloudTokenReported
  {
    SuccessMarksUnsentFieldsReported(s, CustomAttributesDelta(atts), env);
  }

  /**
   * Unreported custom attributes are never part of the delta a sync builds, yet a successful
   * sync patch merges them into the reported ones and empties the buffer: attributes left
   * behind by a failed attribute update are recorded as reported without being sent again.
   */
  lemma SyncCommitsUnsentAttributes(s: Prefs, device: SystemData, env: Env, onCreate: CreateOutcome, atts: CustomAttributes)
    requires s.pushRegId.Some? && s.unreportedCustomAtts == Some(atts)
    requires SyncCycle(s, device, env, onCreate, Patched).call.PatchCall?
    ensures var r := SyncCycle(s, device, env, onCreate, Patched);
            && r.call.payload.customAttributes.None?
            && r.state.unreportedCustomAtts.None?
            && r.state.customAtts == Some(MergeCustomAttributes(s.customAtts, atts))
  {
    var p := PlanSync(s, device, env);
    assert p.staged.unreportedCustomAtts == Some(atts) && p.staged.customAtts == s.customAtts;
    assert OwnDevice(p.delta, p.staged.pushRegId);
  }

  /**
   * A snapshot staged by a failed patch is committed by the next successful patch even when
   * that patch did not carry it. Sync on readings `a` stages `a` and fails; sync on readings
   * `b`, whose hash is the reported one, succeeds on the token alone and records the hash of
   * `a`; a third sync on `a` then decides to do nothing, so `a` never reaches the registry.
   */
  lemma StaleSnapshotNeverSent(s: Prefs, a: SystemData, b: SystemData, env: Env, onCreate: CreateOutcome, e: string)
    requires s.pushRegId.Some? && s.unreportedSystemData.None? && IsNotBlank(s.cloudToken)
    requires s.pushServiceTypeReported && s.applicationUserIdReported && s.unreportedPrimary.None?
    requires s.reportedSystemDataHash == env.hashOf(Snapshot(s.reportSystemInfo, b))
    requires s.reportedSystemDataHash != env.hashOf(Snapshot(s.reportSystemInfo, a))
    ensures var r1 := SyncCycle(s, a, env, onCreate, PatchFailed(e));
            var r2 := SyncCycle(r1.state, b, env, onCreate, Patched);
            && r1.call.PatchCall? && r1.reply == OnError(e)
            && r2.call.PatchCall? && SystemDataOf(r2.call.payload).None? && r2.reply.OnSuccess?
            && PlanSync(r2.state, a, env).decision == DoNothing
  {
    var snapA := Snapshot(s.reportSystemInfo, a);
    var r1 := SyncCycle(s, a, env, onCreate, PatchFailed(e));
    assert r1.state == Rollback(s.(unreportedSystemData := Some(snapA)));
    assert TokenPresentAndUnreported(r1.state);
    assert ReportableSystemData(r1.state, b, env).None?;
    var p2 := PlanSync(r1.state, b, env);
    assert p2.staged == r1.state;
    var r2 := SyncCycle(r1.state, b, env, onCreate, Patched);
    assert r2.state == CommitOwn(r1.state, p2.delta, env);
    assert r2.state.reportedSystemDataHash == env.hashOf(snapA);
    assert ReportableSystemData(r2.state, a, env).None?;
  }
}
