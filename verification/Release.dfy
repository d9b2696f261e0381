/**
  Releasing a version: upload a candidate, probe its preview, activate it, verify, and roll back on
  failure. The provider is an adversary: a command may be applied or not whatever its exit status says,
  may leave traffic split, or may take effect only later; an upload may become visible late or leave
  several versions, and any readback may be refused or unreachable. Readbacks that do answer are true.
*/
module Release {
  import opened Values

  datatype Mode = Shadow | Production

  datatype Meta = Meta(head: nat, mode: Mode)

  /** A refused readback is a CloudflareReleaseError; an unreachable one escapes as another error type. */
  datatype Read<+T> = Got(value: T) | Refused | Unreachable

  datatype Command = Upload | PreviewProbed(version: nat, passed: bool) | Deploy(version: nat)

  /** The active version is the one it was, or one that landed late. */
  predicate MovedBy(was: Option<nat>, now: Option<nat>, landed: set<nat>) {
    now == was || (now.Some? && now.value in landed)
  }

  /**
    The worker at the provider; `active` is None while no single version has all the traffic, and `late` holds
    the versions of deploy commands that have not taken effect and still may.
  */
  class Cloud {
    var active: Option<nat>
    var versions: map<nat, Meta>
    var visible: set<nat>
    var late: set<nat>
    ghost var log: seq<Command>

    ghost predicate Valid()
      reads this
    {
      visible <= versions.Keys && late <= versions.Keys && (active.Some? ==> active.value in versions)
    }

    /** That version is active, and whatever takes effect later leaves it so. */
    ghost predicate Final(version: nat)
      reads this
    {
      active == Some(version) && late <= {version}
    }

    /** Some of the outstanding commands take effect, one of them last. */
    method Land()
      requires Valid()
      modifies this`active, this`late
      ensures Valid() && late <= old(late) && MovedBy(old(active), active, old(late) - late)
      ensures forall v :: old(Final(v)) ==> Final(v)
    {
      var some: set<nat> := *;
      var landed := some * late;
      if landed != {} {
        var last :| last in landed;
        active, late := Some(last), late - landed;
      }
    }

    method RunUpload(meta: Meta) returns (ok: bool)
      requires Valid()
      modifies this
      ensures Valid() && active == old(active) && late == old(late) && log == old(log) + [Upload]
      ensures forall v :: v in old(versions) ==> v in versions && versions[v] == old(versions)[v]
      ensures forall v :: v in versions && v !in old(versions) ==> versions[v] == meta
      ensures old(visible) <= visible
    {
      log := log + [Upload];
      ok := *;
      var first: nat, second: nat := *, *;
      if first !in versions { versions := versions[first := meta]; }
      if second !in versions { versions := versions[second := meta]; }
      var shown: bool := *;
      if shown { visible := visible + {first}; }
    }

    method ReadVersions() returns (r: Read<set<nat>>)
      requires Valid()
      modifies this`visible
      ensures Valid() && old(visible) <= visible
      ensures r.Got? ==> r.value == visible
    {
      var shown: set<nat> := *;
      visible := visible + (shown * versions.Keys);
      r := *;
      if r.Got? { r := Got(visible); }
    }

    method ReadActive() returns (r: Read<nat>)
      requires Valid()
      modifies this`active, this`late
      ensures Valid() && late <= old(late) && MovedBy(old(active), active, old(late) - late)
      ensures r.Got? ==> active == Some(r.value)
    {
      Land();
      r := *;
      if r.Got? {
        if active.Some? { r := Got(active.value); } else { r := Refused; }
      }
    }

    /** The settings and the deployment of the worker, when both answer. */
    method Snapshot(head: nat) returns (r: Read<Option<nat>>)
      requires Valid()
      modifies this`active, this`late
      ensures Valid() && late <= old(late) && MovedBy(old(active), active, old(late) - late)
      ensures r.Got? && r.value.Some? ==> active == r.value && versions[r.value.value] == Meta(head, Shadow)
    {
      Land();
      r := *;
      if r.Got? {
        if active.Some? && versions[active.value] == Meta(head, Shadow) { r := Got(active); } else { r := Got(None); }
      }
    }

    method RunDeploy(version: nat) returns (ok: bool)
      requires Valid() && version in versions
      modifies this`active, this`late, this`log
      ensures Valid() && log == old(log) + [Deploy(version)]
      ensures (active == Some(version) && late == old(late))
              || ((active == old(active) || active == None) && (late == old(late) || late == old(late) + {version}))
    {
      log := log + [Deploy(version)];
      ok := *;
      var applied: bool, split: bool, delayed: bool := *, *, *;
      if applied { active := Some(version); return; }
      if split { active := None; }
      if delayed { late := late + {version}; }
    }

    /** Readback and live probes of whatever is active. */
    method Validate(head: nat, mode: Mode) returns (ok: bool)
      requires Valid()
      modifies this`active, this`late
      ensures Valid() && late <= old(late) && MovedBy(old(active), active, old(late) - late)
      ensures ok ==> active.Some? && versions[active.value] == Meta(head, mode)
    {
      Land();
      ok := *;
      ok := ok && active.Some? && versions[active.value] == Meta(head, mode);
    }

    method ProbePreview(version: nat) returns (ok: bool)
      modifies this`log
      ensures log == old(log) + [PreviewProbed(version, ok)]
    {
      ok := *;
      log := log + [PreviewProbed(version, ok)];
    }
  }

  datatype Uploaded = Uploaded(version: nat, uncertain: bool)

  datatype Change = Change(version: nat, uncertain: bool, alreadyActive: bool)

  datatype Error =
    | VersionsUnread | Ambiguous | NotApplied | PreviewUnread | ActiveUnread | RollbackAmbiguous
    | TransportUnknown

  /** Polls for a single new version; several new ones, or none after five polls, is an error. */
  method DiscoverSingleNewVersion(cloud: Cloud, before: set<nat>) returns (r: Result<nat, Error>)
    requires cloud.Valid()
    modifies cloud`visible
    ensures cloud.Valid() && old(cloud.visible) <= cloud.visible
    ensures r.Ok? ==> cloud.visible - before == {r.value}
    ensures r == Err(NotApplied) ==> cloud.visible <= before
    ensures r == Err(Ambiguous) ==> |cloud.visible - before| > 1
  {
    for attempt := 0 to 5
      invariant cloud.Valid() && old(cloud.visible) <= cloud.visible
      invariant attempt > 0 ==> cloud.visible <= before
    {
      var latest := cloud.ReadVersions();
      if latest.Unreachable? { return Err(TransportUnknown); }
      if latest.Refused? { return Err(VersionsUnread); }
      var delta := latest.value - before;
      if |delta| == 1 {
        var version :| version in delta;
        Singleton(delta, version);
        return Ok(version);
      }
      if |delta| > 1 { return Err(Ambiguous); }
      forall v | v in cloud.visible ensures v in before { assert v !in delta; }
    }
    r := Err(NotApplied);
  }

  lemma Singleton(s: set<nat>, x: nat)
    requires |s| == 1 && x in s
    ensures s == {x}
  {
    assert |s - {x}| == 0;
    assert s == (s - {x}) + {x};
  }

  method UploadVersionCandidate(cloud: Cloud, head: nat) returns (r: Result<Uploaded, Error>)
    requires cloud.Valid()
    modifies cloud
    ensures cloud.Valid() && cloud.active == old(cloud.active) && cloud.late == old(cloud.late)
    ensures cloud.log == old(cloud.log) || cloud.log == old(cloud.log) + [Upload]
    ensures forall v :: v in old(cloud.versions) ==> v in cloud.versions && cloud.versions[v] == old(cloud.versions)[v]
    ensures forall v :: v in cloud.versions && v !in old(cloud.versions) ==> cloud.versions[v] == Meta(head, Production)
    ensures r.Ok? ==>
            cloud.log == old(cloud.log) + [Upload] && r.value.version in cloud.versions
              && r.value.version !in old(cloud.visible)
  {
    var before := cloud.ReadVersions();
    if before.Unreachable? { return Err(TransportUnknown); }
    if before.Refused? { return Err(VersionsUnread); }
    var ok := cloud.RunUpload(Meta(head, Production));
    var version := DiscoverSingleNewVersion(cloud, before.value);
    if version.Err? { return Err(version.error); }
    var preview: Read<bool> := *;
    if preview.Unreachable? { return Err(TransportUnknown); }
    if preview != Got(true) { return Err(PreviewUnread); }
    r := Ok(Uploaded(version.value, !ok));
  }

  /** Changes of the active version by one command, on top of what lands late. */
  ghost predicate Changed(was: Option<nat>, now: Option<nat>, late: set<nat>, version: nat) {
    now == None || MovedBy(was, now, late + {version})
  }

  method DeployVersion100(cloud: Cloud, version: nat) returns (r: Result<Change, Error>)
    requires cloud.Valid() && version in cloud.versions
    modifies cloud`active, cloud`late, cloud`log
    ensures cloud.Valid() && cloud.late <= old(cloud.late) + {version}
    ensures cloud.log == old(cloud.log) || cloud.log == old(cloud.log) + [Deploy(version)]
    ensures cloud.log == old(cloud.log) ==>
              MovedBy(old(cloud.active), cloud.active, old(cloud.late)) && cloud.late <= old(cloud.late)
    ensures Changed(old(cloud.active), cloud.active, old(cloud.late), version)
    ensures r.Ok? ==> cloud.active == Some(version) && cloud.late <= old(cloud.late)
    ensures r.Ok? && r.value.alreadyActive ==> cloud.log == old(cloud.log)
    ensures r == Err(NotApplied) ==> MovedBy(old(cloud.active), cloud.active, old(cloud.late))
  {
    var before := cloud.ReadActive();
    if before.Unreachable? { return Err(TransportUnknown); }
    if before.Refused? { return Err(ActiveUnread); }
    if before.value == version { return Ok(Change(version, false, true)); }
    var ok := cloud.RunDeploy(version);
    var after := cloud.ReadActive();
    if after.Unreachable? { return Err(TransportUnknown); }
    if after.Refused? { return Err(Ambiguous); }
    if after.value == version { return Ok(Change(version, !ok, false)); }
    if after.value == before.value { return Err(NotApplied); }
    r := Err(Ambiguous);
  }

  method RollbackToVersion(cloud: Cloud, version: nat) returns (r: Result<Change, Error>)
    requires cloud.Valid() && version in cloud.versions
    modifies cloud`active, cloud`late, cloud`log
    ensures cloud.Valid() && cloud.late <= old(cloud.late) + {version}
    ensures cloud.log == old(cloud.log) || cloud.log == old(cloud.log) + [Deploy(version)]
    ensures cloud.log == old(cloud.log) ==>
              MovedBy(old(cloud.active), cloud.active, old(cloud.late)) && cloud.late <= old(cloud.late)
    ensures Changed(old(cloud.active), cloud.active, old(cloud.late), version)
    ensures r.Ok? ==> cloud.active == Some(version)
  {
    var before := cloud.ReadActive();
    if before.Unreachable? { return Err(TransportUnknown); }
    if before == Got(version) { return Ok(Change(version, false, true)); }
    var ok := cloud.RunDeploy(version);
    var after := cloud.ReadActive();
    if after.Unreachable? { return Err(TransportUnknown); }
    if after == Got(version) { return Ok(Change(version, !ok, false)); }
    r := Err(RollbackAmbiguous);
  }

  datatype RollbackError = RollbackFailed | RollbackValidationFailed | RollbackUnreachable

  method RollbackAndVerify(cloud: Cloud, previous: nat, head: nat) returns (r: Result<Change, RollbackError>)
    requires cloud.Valid() && previous in cloud.versions
    modifies cloud`active, cloud`late, cloud`log
    ensures cloud.Valid() && cloud.late <= old(cloud.late) + {previous}
    ensures cloud.log == old(cloud.log) || cloud.log == old(cloud.log) + [Deploy(previous)]
    ensures cloud.log == old(cloud.log) ==>
              MovedBy(old(cloud.active), cloud.active, old(cloud.late)) && cloud.late <= old(cloud.late)
    ensures Changed(old(cloud.active), cloud.active, old(cloud.late), previous)
    ensures r.Ok? || r == Err(RollbackValidationFailed) ==> MovedBy(Some(previous), cloud.active, old(cloud.late))
    ensures r.Ok? ==> cloud.active.Some? && cloud.versions[cloud.active.value] == Meta(head, Shadow)
  {
    var change := RollbackToVersion(cloud, previous);
    if change.Err? { return Err(if change.error.TransportUnknown? then RollbackUnreachable else RollbackFailed); }
    var ok := cloud.Validate(head, Shadow);
    if !ok { return Err(RollbackValidationFailed); }
    r := Ok(change.value);
  }

  datatype Failure =
    | NotReady | PrestateNotExactShadow | UploadFailed | PreviewValidationFailed
    | ActivationFailedRolledBack | PostdeployFailedRolledBack
    | RollbackFailure(e: RollbackError)
    | Escaped

  datatype Released = Released(previous: nat, candidate: nat)

  predicate RolledBack(f: Failure) { f.ActivationFailedRolledBack? || f.PostdeployFailedRolledBack? }

  /** The commands one release may send, given the version that was active and the candidate. */
  ghost predicate Protocol(sent: seq<Command>, previous: nat, candidate: nat) {
    || sent == [] || sent == [Upload]
    || sent == [Upload, PreviewProbed(candidate, false)]
    || sent == [Upload, PreviewProbed(candidate, true)]
    || sent == [Upload, PreviewProbed(candidate, true), Deploy(candidate)]
    || sent == [Upload, PreviewProbed(candidate, true), Deploy(previous)]
    || sent == [Upload, PreviewProbed(candidate, true), Deploy(candidate), Deploy(previous)]
  }

  /** From the activation command on; `sent` are the commands sent. */
  method ActivateOrRollBack(cloud: Cloud, previous: nat, candidate: nat, head: nat)
    returns (r: Result<Released, Failure>, ghost sent: seq<Command>)
    requires cloud.Valid() && previous in cloud.versions && candidate in cloud.versions
    modifies cloud`active, cloud`late, cloud`log
    ensures cloud.Valid() && cloud.log == old(cloud.log) + sent && cloud.late <= old(cloud.late) + {candidate, previous}
    ensures || sent == [] || sent == [Deploy(candidate)] || sent == [Deploy(previous)]
            || sent == [Deploy(candidate), Deploy(previous)]
    ensures sent == [] ==> MovedBy(old(cloud.active), cloud.active, old(cloud.late))
    ensures r.Ok? ==>
              && r.value == Released(previous, candidate) && MovedBy(Some(candidate), cloud.active, old(cloud.late))
              && cloud.active.Some? && cloud.versions[cloud.active.value] == Meta(head, Production)
              && cloud.late <= old(cloud.late)
    ensures r.Err? ==> RolledBack(r.error) || r.error.RollbackFailure? || r.error.Escaped?
    ensures r.Err? && RolledBack(r.error) ==>
              && cloud.active.Some? && cloud.versions[cloud.active.value] == Meta(head, Shadow)
              && MovedBy(Some(previous), cloud.active, old(cloud.late) + {candidate})
              && (r.error.PostdeployFailedRolledBack? ==> cloud.late <= old(cloud.late) + {previous})
    ensures r == Err(Escaped) ==> sent == [] || sent == [Deploy(candidate)]
    ensures r == Err(RollbackFailure(RollbackValidationFailed)) ==>
              MovedBy(Some(previous), cloud.active, old(cloud.late) + {candidate})
    ensures cloud.active == None || MovedBy(old(cloud.active), cloud.active, old(cloud.late) + {candidate, previous})
  {
    sent := [];
    var activation := DeployVersion100(cloud, candidate);
    if cloud.log != old(cloud.log) { sent := [Deploy(candidate)]; }
    if activation.Err? && activation.error.TransportUnknown? { return Err(Escaped), sent; }
    if activation.Ok? {
      var valid := cloud.Validate(head, Production);
      if valid { return Ok(Released(previous, candidate)), sent; }
    }
    label activated:
    var rollback := RollbackAndVerify(cloud, previous, head);
    if cloud.log != old@activated(cloud.log) { sent := sent + [Deploy(previous)]; }
    r := Err(if rollback.Err? then RollbackFailure(rollback.error)
             else if activation.Err? then ActivationFailedRolledBack else PostdeployFailedRolledBack);
  }

  /**
    A release sends at most one upload, one activation and one rollback, and activates only a version whose
    preview probe passed. With no earlier command outstanding: a normal return means the candidate is active
    for good. ROLLED_BACK means the Shadow version that was active before is active again, for good if the
    activation had been confirmed by a readback; if not, exactly as long as the activation command does not
    take effect after all. Failing earlier leaves the active version alone. An unreachable readback after the
    activation command escapes without a rollback: then the candidate may be active, and no other version is.
    Commands outstanding from earlier releases may take effect in between, and nothing else.
  */
  method DeployProduction(cloud: Cloud, head: nat, ready: bool)
    returns (r: Result<Released, Failure>, candidate: nat, ghost previous: nat, ghost sent: seq<Command>)
    requires cloud.Valid()
    modifies cloud
    ensures cloud.Valid() && cloud.log == old(cloud.log) + sent && Protocol(sent, previous, candidate)
    ensures sent != [] ==> MovedBy(old(cloud.active), Some(previous), old(cloud.late))
                           && previous in old(cloud.versions) && old(cloud.versions)[previous] == Meta(head, Shadow)
    ensures r.Ok? ==>
              && r.value == Released(previous, candidate) && MovedBy(Some(candidate), cloud.active, old(cloud.late))
              && cloud.active.Some? && cloud.versions[cloud.active.value] == Meta(head, Production)
              && candidate !in old(cloud.visible) && cloud.late <= old(cloud.late)
    ensures r.Err? && RolledBack(r.error) ==>
              && cloud.active.Some? && cloud.versions[cloud.active.value] == Meta(head, Shadow)
              && MovedBy(Some(previous), cloud.active, old(cloud.late) + {candidate})
              && cloud.late <= old(cloud.late) + {candidate, previous}
    ensures r.Ok? && old(cloud.late) == {} ==> cloud.Final(candidate)
    ensures r.Err? && RolledBack(r.error) && old(cloud.late) == {} && candidate !in old(cloud.versions) ==>
              && cloud.active == Some(previous) && cloud.active == old(cloud.active)
              && (r.error.PostdeployFailedRolledBack? ==> cloud.Final(previous))
              && (cloud.Final(previous) <==> candidate !in cloud.late)
    ensures r.Err? && Early(r.error) ==> |sent| <= 2
    ensures |sent| <= 2 ==> MovedBy(old(cloud.active), cloud.active, old(cloud.late))
    ensures r == Err(Escaped) ==> |sent| <= 2 || sent == [Upload, PreviewProbed(candidate, true), Deploy(candidate)]
    ensures r == Err(RollbackFailure(RollbackValidationFailed)) ==>
              MovedBy(Some(previous), cloud.active, old(cloud.late) + {candidate})
    ensures cloud.active == None || MovedBy(old(cloud.active), cloud.active, old(cloud.late) + {candidate, previous})
  {
    candidate, previous, sent := 0, 0, [];
    if !ready { return Err(NotReady), candidate, previous, sent; }
    var snapshot := cloud.Snapshot(head);
    if snapshot.Unreachable? { return Err(Escaped), candidate, previous, sent; }
    if snapshot.Refused? || snapshot.value.None? { return Err(PrestateNotExactShadow), candidate, previous, sent; }
    var before := snapshot.value.value;
    previous := before;
    var uploaded := UploadVersionCandidate(cloud, head);
    if uploaded.Err? {
      sent := if cloud.log == old(cloud.log) then [] else [Upload];
      return Err(if uploaded.error.TransportUnknown? then Escaped else UploadFailed), candidate, previous, sent;
    }
    candidate := uploaded.value.version;
    var passed := cloud.ProbePreview(candidate);
    sent := [Upload, PreviewProbed(candidate, passed)];
    if !passed { return Err(PreviewValidationFailed), candidate, previous, sent; }
    ghost var rest;
    r, rest := ActivateOrRollBack(cloud, before, candidate, head);
    sent := sent + rest;
  }

  /** Failures before the activation command. */
  predicate Early(f: Failure) {
    f.NotReady? || f.PrestateNotExactShadow? || f.UploadFailed? || f.PreviewValidationFailed?
  }
}
