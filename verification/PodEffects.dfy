/**
 What a pass of the rolling update leaves under every name: the volumes with their sources, the mounts with their paths,
 the init containers and the environment, each by a closed form; and that later passes keep it.
 */
module PodEffects {
  import opened Operands
  import opened NamedLists
  import opened PodTemplate
  import opened RollingConvergence

  // The secret volume asked for under a name.
  function Asked(vs: seq<SecretVolume>, k: Key): Option<SecretVolume> {
    if vs == [] then None
    else if vs[|vs| - 1].key == k then Some(vs[|vs| - 1])
    else Asked(vs[..|vs| - 1], k)
  }

  lemma {:induction false} AskedIs(vs: seq<SecretVolume>, i: nat)
    requires i < |vs| && forall m, n :: 0 <= m < n < |vs| ==> vs[m].key != vs[n].key
    ensures Asked(vs, vs[i].key) == Some(vs[i])
  {
    if i < |vs| - 1 {
      AskedIs(vs[..|vs| - 1], i);
    }
  }

  // A volume that was there keeps its source, but for the overlay and the identities.
  function VolumeAfter(d: DesiredPod, p: Pod, k: Key): Option<Source> {
    match k
    case UserConf => if d.configMap.None? then None else Some(ConfigMap(d.configMap.value))
    case CustomLibraries =>
      if d.claim.None? then None else if Has(p.volumes, k) then Lookup(p.volumes, k) else Some(Claim(d.claim.value))
    case ExternalArtifacts =>
      if d.artifacts.None? then None else if Has(p.volumes, k) then Lookup(p.volumes, k) else Some(EmptyDir)
    case Identities =>
      if Has(p.volumes, k) || d.identitiesHash.Some? then Some(Secret(d.identitySecret)) else None
    case _ =>
      if Has(p.volumes, k) || Asked(d.secretVolumes, k).None? then Lookup(p.volumes, k)
      else Some(Secret(Asked(d.secretVolumes, k).value.secret))
  }

  // A mount that was there stays as it is, but for the secret volumes asked for.
  function MountAfter(d: DesiredPod, p: Pod, k: Key): Option<MountPoint> {
    match k
    case UserConf =>
      if d.configMap.None? then None
      else if Has(p.mounts, k) then Lookup(p.mounts, k) else Some(MountPoint(OVERLAY_PATH, false))
    case CustomLibraries =>
      if d.claim.None? then None
      else if Has(p.mounts, k) then Lookup(p.mounts, k) else Some(MountPoint(LIBRARIES_PATH, true))
    case ExternalArtifacts =>
      if d.artifacts.None? then None
      else if Has(p.mounts, k) then Lookup(p.mounts, k) else Some(MountPoint(ARTIFACTS_PATH, true))
    case Identities =>
      if Has(p.mounts, k) || Has(p.volumes, k) || d.identitiesHash.None? then Lookup(p.mounts, k)
      else Some(MountPoint(IDENTITIES_PATH, false))
    case _ =>
      if Asked(d.secretVolumes, k).None? then Lookup(p.mounts, k)
      else Some(MountPoint(Asked(d.secretVolumes, k).value.path, false))
  }

  function InitAfter(d: DesiredPod, p: Pod, k: Key): Option<InitContainer> {
    if k == Download then d.artifacts else Lookup(p.inits, k)
  }

  // The hash of the identities is updated only once their volume is there.
  function EnvAfter(d: DesiredPod, p: Pod, k: Key): Option<string> {
    if Has(d.hashes, k) then Lookup(d.hashes, k)
    else if k == IdentitiesHash && d.identitiesHash.Some? && (Has(p.volumes, Identities) || !Has(p.env, k))
    then d.identitiesHash
    else Lookup(p.env, k)
  }

  // ---- helper by helper ----

  lemma OverlayEffect(d: DesiredPod, p: Pod, k: Key)
    requires WellMade(p)
    ensures var q := ApplyOverlay(d.configMap, p).pod;
            && Lookup(q.volumes, k) == (if k == UserConf then VolumeAfter(d, p, k) else Lookup(p.volumes, k))
            && Lookup(q.mounts, k) == (if k == UserConf then MountAfter(d, p, k) else Lookup(p.mounts, k))
  {
    OverlayRuns(d.configMap, p);
    if d.configMap.Some? {
      AppendEffect(p.mounts, Named(UserConf, MountPoint(OVERLAY_PATH, false)), k);
    } else if Has(p.volumes, UserConf) {
      RemoveEffect(p.mounts, UserConf, k);
    }
  }

  lemma DependenciesEffect(d: DesiredPod, p: Pod, k: Key)
    requires Paired(p, CustomLibraries)
    ensures ApplyDependencies(d.claim, p).Patched?
    ensures var q := ApplyDependencies(d.claim, p).pod;
            && Lookup(q.volumes, k) == (if k == CustomLibraries then VolumeAfter(d, p, k) else Lookup(p.volumes, k))
            && Lookup(q.mounts, k) == (if k == CustomLibraries then MountAfter(d, p, k) else Lookup(p.mounts, k))
  {
    if d.claim.Some? {
      AppendEffect(p.volumes, Named(CustomLibraries, Claim(d.claim.value)), k);
      AppendEffect(p.mounts, Named(CustomLibraries, MountPoint(LIBRARIES_PATH, true)), k);
    } else if Has(p.volumes, CustomLibraries) {
      RemoveEffect(p.volumes, CustomLibraries, k);
      RemoveEffect(p.mounts, CustomLibraries, k);
    }
  }

  lemma ArtifactsEffect(d: DesiredPod, p: Pod, k: Key)
    requires WellMade(p)
    ensures var q := ApplyArtifacts(d.artifacts, p).pod;
            && Lookup(q.volumes, k) == (if k == ExternalArtifacts then VolumeAfter(d, p, k) else Lookup(p.volumes, k))
            && Lookup(q.mounts, k) == (if k == ExternalArtifacts then MountAfter(d, p, k) else Lookup(p.mounts, k))
            && Lookup(q.inits, k) == InitAfter(d, p, k)
  {
    ArtifactsRun(d.artifacts, p);
    InitsEffect(d, p, k);
    if Has(p.inits, Download) && d.artifacts.None? {
      RemoveEffect(p.volumes, ExternalArtifacts, k);
      RemoveEffect(p.mounts, ExternalArtifacts, k);
    } else if !Has(p.inits, Download) && d.artifacts.Some? {
      AppendEffect(p.volumes, Named(ExternalArtifacts, EmptyDir), k);
      AppendEffect(p.mounts, Named(ExternalArtifacts, MountPoint(ARTIFACTS_PATH, true)), k);
    }
  }

  lemma InitsEffect(d: DesiredPod, p: Pod, k: Key)
    requires ApplyArtifacts(d.artifacts, p).Patched? && Once(p.inits, Download)
    ensures Lookup(ApplyArtifacts(d.artifacts, p).pod.inits, k) == InitAfter(d, p, k)
  {
    if Has(p.inits, Download) {
      if d.artifacts.None? {
        RemoveEffect(p.inits, Download, k);
      } else {
        PutEffect(p.inits, Download, d.artifacts.value, k);
      }
    } else if d.artifacts.Some? {
      AppendEffect(p.inits, Named(Download, d.artifacts.value), k);
    }
  }

  lemma IdentitiesEffect(d: DesiredPod, p: Pod, k: Key)
    ensures var p1 := ApplyIdentitySecret(d.identitySecret, p).0;
            var q := ApplyAuthentication(d.identitiesHash, d.identitySecret, p1).0;
            && Lookup(q.volumes, k) == (if k == Identities then VolumeAfter(d, p, k) else Lookup(p.volumes, k))
            && Lookup(q.mounts, k) == (if k == Identities then MountAfter(d, p, k) else Lookup(p.mounts, k))
            && q.inits == p.inits
            && Lookup(q.env, k) == (if k == IdentitiesHash then EnvAfter(d.(hashes := []), p, k) else Lookup(p.env, k))
  {
    if Has(p.volumes, Identities) {
      PutEffect(p.volumes, Identities, Secret(d.identitySecret), k);
      PutEffect(p.volumes, Identities, Secret(d.identitySecret), Identities);
      if d.identitiesHash.Some? {
        SetEnvRuns(p.env, IdentitiesHash, d.identitiesHash.value, k);
      }
    } else if d.identitiesHash.Some? {
      AppendEffect(p.volumes, Named(Identities, Secret(d.identitySecret)), k);
      AppendEffect(p.mounts, Named(Identities, MountPoint(IDENTITIES_PATH, false)), k);
      AppendEffect(p.env, Named(IdentitiesHash, d.identitiesHash.value), k);
    }
  }

  lemma SecretEffect(v: SecretVolume, p: Pod, k: Key)
    ensures var q := AddSecretVolume(v, p).0;
            && q.env == p.env && q.inits == p.inits
            && Lookup(q.volumes, k) == (if k == v.key && !Has(p.volumes, k) then Some(Secret(v.secret))
                                        else Lookup(p.volumes, k))
            && Lookup(q.mounts, k) == (if k == v.key then Some(MountPoint(v.path, false)) else Lookup(p.mounts, k))
  {
    AppendEffect(p.volumes, Named(v.key, Secret(v.secret)), k);
    if Has(p.mounts, v.key) {
      PutEffect(p.mounts, v.key, MountPoint(v.path, false), k);
    } else {
      AppendEffect(p.mounts, Named(v.key, MountPoint(v.path, false)), k);
    }
  }

  // Every secret volume asked for holds its secret, unless a volume of that name was there before, and is mounted at
  // its path.
  lemma {:induction false} SecretsEffect(vs: seq<SecretVolume>, p: Pod, k: Key)
    requires forall i, j :: 0 <= i < j < |vs| ==> vs[i].key != vs[j].key
    ensures var q := AddSecretVolumes(vs, p).0;
            && q.env == p.env && q.inits == p.inits
            && Lookup(q.volumes, k) == (if Asked(vs, k).None? || Has(p.volumes, k) then Lookup(p.volumes, k)
                                        else Some(Secret(Asked(vs, k).value.secret)))
            && Lookup(q.mounts, k) == (if Asked(vs, k).None? then Lookup(p.mounts, k)
                                       else Some(MountPoint(Asked(vs, k).value.path, false)))
  {
    if vs != [] {
      var front, last := vs[..|vs| - 1], vs[|vs| - 1];
      SecretsEffect(front, p, k);
      NotAsked(front, last.key);
      SecretEffect(last, AddSecretVolumes(front, p).0, k);
    }
  }

  lemma {:induction false} NotAsked(vs: seq<SecretVolume>, k: Key)
    requires forall i :: 0 <= i < |vs| ==> vs[i].key != k
    ensures Asked(vs, k).None?
  {
    if vs != [] {
      NotAsked(vs[..|vs| - 1], k);
    }
  }

  lemma {:induction false} HashesEffect(hashes: seq<EnvVar>, env: seq<EnvVar>, k: Key)
    requires forall i, j :: 0 <= i < j < |hashes| ==> hashes[i].name != hashes[j].name
    ensures Lookup(SetHashes(hashes, env).0, k) == if Has(hashes, k) then Lookup(hashes, k) else Lookup(env, k)
  {
    SetHashesRun(hashes, env);
  }

  // ---- one pass ----

  predicate Removable(k: Key) {
    k == UserConf || k == CustomLibraries || k == ExternalArtifacts
  }

  // What becomes of a name depends only on what is found under it.
  lemma SameAfter(d: DesiredPod, p: Pod, q: Pod, k: Key)
    requires Lookup(p.volumes, k) == Lookup(q.volumes, k) && Lookup(p.mounts, k) == Lookup(q.mounts, k)
    ensures VolumeAfter(d, p, k) == VolumeAfter(d, q, k) && MountAfter(d, p, k) == MountAfter(d, q, k)
  {
  }

  lemma FirstVolumesEffect(d: DesiredPod, p: Pod, k: Key)
    requires WellMade(p)
    ensures ApplyOverlay(d.configMap, p).Patched? && WellMade(ApplyOverlay(d.configMap, p).pod)
    ensures var q := ApplyArtifacts(d.artifacts, ApplyOverlay(d.configMap, p).pod).pod;
            && WellMade(q) && q.env == p.env && Lookup(q.inits, k) == InitAfter(d, p, k)
            && var patched := k == UserConf || k == ExternalArtifacts;
               && Lookup(q.volumes, k) == (if patched then VolumeAfter(d, p, k) else Lookup(p.volumes, k))
               && Lookup(q.mounts, k) == (if patched then MountAfter(d, p, k) else Lookup(p.mounts, k))
  {
    OverlayRuns(d.configMap, p);
    var p1 := ApplyOverlay(d.configMap, p).pod;
    ArtifactsRun(d.artifacts, p1);
    OverlayEffect(d, p, k);
    ArtifactsEffect(d, p1, k);
    if k != UserConf {
      SameAfter(d, p, p1, k);
    }
  }

  lemma VolumesEffect(d: DesiredPod, p: Pod, k: Key)
    requires WellMade(p)
    ensures var r := UpdateVolumes(d, p);
            && r.Patched? && r.pod.env == p.env && Lookup(r.pod.inits, k) == InitAfter(d, p, k)
            && Lookup(r.pod.volumes, k) == (if Removable(k) then VolumeAfter(d, p, k) else Lookup(p.volumes, k))
            && Lookup(r.pod.mounts, k) == (if Removable(k) then MountAfter(d, p, k) else Lookup(p.mounts, k))
  {
    UpdateVolumesRuns(d, p);
    FirstVolumesEffect(d, p, k);
    var p2 := ApplyArtifacts(d.artifacts, ApplyOverlay(d.configMap, p).pod).pod;
    ArtifactsRun(d.artifacts, ApplyOverlay(d.configMap, p).pod);
    DependenciesRun(d.claim, p2);
    DependenciesEffect(d, p2, k);
    if k == CustomLibraries {
      SameAfter(d, p, p2, k);
    }
  }

  lemma SecretPartEffect(d: DesiredPod, p: Pod, k: Key)
    requires ValidRequest(d)
    ensures var q := UpdateSecrets(d, p).0;
            && q.inits == p.inits && Lookup(q.env, k) == EnvAfter(d, p, k)
            && Lookup(q.volumes, k) == (if Removable(k) then Lookup(p.volumes, k) else VolumeAfter(d, p, k))
            && Lookup(q.mounts, k) == (if Removable(k) then Lookup(p.mounts, k) else MountAfter(d, p, k))
  {
    IdentitiesEffect(d, p, k);
    var p1 := ApplyIdentitySecret(d.identitySecret, p).0;
    var p2 := ApplyAuthentication(d.identitiesHash, d.identitySecret, p1).0;
    if !IsSecretKey(k) || k.Identities? {
      NotAsked(d.secretVolumes, k);
    }
    SecretsEffect(d.secretVolumes, p2, k);
    HashesEffect(d.hashes, AddSecretVolumes(d.secretVolumes, p2).0.env, k);
  }

  // What one pass over a well-made pod leaves under every name.
  lemma PodEffect(d: DesiredPod, p: Pod, k: Key)
    requires ValidRequest(d) && WellMade(p)
    ensures var r := UpdatePod(d, p);
            && r.Patched?
            && Lookup(r.pod.volumes, k) == VolumeAfter(d, p, k) && Lookup(r.pod.mounts, k) == MountAfter(d, p, k)
            && Lookup(r.pod.inits, k) == InitAfter(d, p, k) && Lookup(r.pod.env, k) == EnvAfter(d, p, k)
  {
    VolumesEffect(d, p, k);
    var q := UpdateVolumes(d, p).pod;
    VolumesEffect(d, p, Identities);
    SecretPartEffect(d, q, k);
    SameEnvAfter(d, p, q, k);
    if !Removable(k) {
      SameAfter(d, p, q, k);
    }
  }

  lemma SameEnvAfter(d: DesiredPod, p: Pod, q: Pod, k: Key)
    requires Lookup(p.volumes, Identities) == Lookup(q.volumes, Identities) && p.env == q.env
    ensures EnvAfter(d, p, k) == EnvAfter(d, q, k)
  {
  }

  // ---- when the pods are rolled ----

  lemma QuietPass(d: DesiredPod, p: Pod)
    requires ValidRequest(d) && UpdatePod(d, p).Patched? && !UpdatePod(d, p).changed
    ensures UpdatePod(d, p).pod == p
  {
    var p1 := UpdateVolumes(d, p).pod;
    assert p1 == p;
    var p2 := ApplyAuthentication(d.identitiesHash, d.identitySecret, ApplyIdentitySecret(d.identitySecret, p).0).0;
    SecretsRun(d.secretVolumes, p2);
    SetHashesRun(d.hashes, AddSecretVolumes(d.secretVolumes, p2).0.env);
  }

  // A pass that leaves the pod as it is has nothing to do.
  lemma IdlePass(d: DesiredPod, p: Pod)
    requires ValidRequest(d) && WellMade(p) && UpdatePod(d, p).Patched? && UpdatePod(d, p).pod == p
    ensures !UpdatePod(d, p).changed
  {
    UpdatePodRuns(d, p);
  }

  // The pods are rolled exactly when the template changes in more than the number of replicas; it is stored exactly
  // when it changes at all.
  lemma PodsRollWhen(d: Desired, t: Template)
    requires ValidRequest(d.pod) && WellMade(t.pod)
    ensures var r := Apply(d, t);
            r.Pass? && (r.rolls <==> r.template != t.(replicas := d.replicas)) && (r.stored <==> r.template != t)
  {
    var p := StartingPod(d, t);
    EnvDoesNotMatter(t.pod, p.env);
    UpdatePodRuns(d.pod, p);
    PassFields(d, t);
    if UpdatePod(d.pod, p).changed {
      if UpdatePod(d.pod, p).pod == p { IdlePass(d.pod, p); }
    } else {
      QuietPass(d.pod, p);
    }
    assert t.checksums.podEnvs == d.checksums.podEnvs ==> p == t.pod;
  }

  // ---- later passes ----

  // A pass over what a pass has left finds everything as it is, but perhaps the hash of the identities.
  lemma PassIsStable(d: DesiredPod, p: Pod, q: Pod, k: Key)
    requires Lookup(q.volumes, k) == VolumeAfter(d, p, k) && Lookup(q.mounts, k) == MountAfter(d, p, k)
    requires Lookup(q.inits, k) == InitAfter(d, p, k)
    ensures VolumeAfter(d, q, k) == VolumeAfter(d, p, k) && MountAfter(d, q, k) == MountAfter(d, p, k)
    ensures InitAfter(d, q, k) == InitAfter(d, p, k)
  {
  }

  // The environment once the hash has been settled.
  function SettledEnv(d: DesiredPod, env: seq<EnvVar>, k: Key): Option<string> {
    if Has(d.hashes, k) then Lookup(d.hashes, k)
    else if k == IdentitiesHash && d.identitiesHash.Some? then d.identitiesHash
    else Lookup(env, k)
  }

  // The environment the passes start from.
  function StartingEnv(d: Desired, t: Template): seq<EnvVar> {
    if t.checksums.podEnvs != d.checksums.podEnvs then d.pod.env else t.pod.env
  }

  lemma FirstPassEffect(d: Desired, t: Template, k: Key)
    requires ValidRequest(d.pod) && WellMade(t.pod)
    ensures var r := Apply(d, t);
            && r.Pass?
            && Lookup(r.template.pod.volumes, k) == VolumeAfter(d.pod, t.pod, k)
            && Lookup(r.template.pod.mounts, k) == MountAfter(d.pod, t.pod, k)
            && Lookup(r.template.pod.inits, k) == InitAfter(d.pod, t.pod, k)
            && Lookup(r.template.pod.env, k) == EnvAfter(d.pod, StartingPod(d, t), k)
  {
    EnvDoesNotMatter(t.pod, StartingPod(d, t).env);
    PodEffect(d.pod, StartingPod(d, t), k);
    PassFields(d, t);
  }

  // A later one.
  lemma NextPassEffect(d: Desired, t: Template, u: Template, k: Key)
    requires ValidRequest(d.pod) && NearlyDoneButProbes(d, u)
    requires Lookup(u.pod.volumes, k) == VolumeAfter(d.pod, t.pod, k)
    requires Lookup(u.pod.mounts, k) == MountAfter(d.pod, t.pod, k)
    requires Lookup(u.pod.inits, k) == InitAfter(d.pod, t.pod, k)
    ensures var r := Apply(d, u);
            && r.Pass?
            && Lookup(r.template.pod.volumes, k) == VolumeAfter(d.pod, t.pod, k)
            && Lookup(r.template.pod.mounts, k) == MountAfter(d.pod, t.pod, k)
            && Lookup(r.template.pod.inits, k) == InitAfter(d.pod, t.pod, k)
            && Lookup(r.template.pod.env, k) == EnvAfter(d.pod, u.pod, k)
  {
    PodEffect(d.pod, u.pod, k);
    PassIsStable(d.pod, t.pod, u.pod, k);
    assert u.pod.(env := u.pod.env) == u.pod;
    PassFields(d, u);
  }

  lemma EnvIsSettled(d: DesiredPod, p: Pod, q: Pod, k: Key)
    requires Lookup(q.env, k) == EnvAfter(d, p, k) && (d.identitiesHash.Some? ==> Has(q.volumes, Identities))
    ensures EnvAfter(d, q, k) == SettledEnv(d, p.env, k)
  {
  }

  lemma SettledEnvStays(d: DesiredPod, env: seq<EnvVar>, q: Pod, k: Key)
    requires Lookup(q.env, k) == SettledEnv(d, env, k) && (d.identitiesHash.Some? ==> Has(q.volumes, Identities))
    ensures EnvAfter(d, q, k) == SettledEnv(d, env, k)
  {
  }

  // The pod found by a lookup under `k`.
  ghost predicate Converged(d: Desired, t: Template, p: Pod, k: Key) {
    && Lookup(p.volumes, k) == VolumeAfter(d.pod, t.pod, k) && Lookup(p.mounts, k) == MountAfter(d.pod, t.pod, k)
    && Lookup(p.inits, k) == InitAfter(d.pod, t.pod, k)
    && Lookup(p.env, k) == SettledEnv(d.pod, StartingEnv(d, t), k)
  }

  lemma SecondPassEffect(d: Desired, t: Template, k: Key)
    requires ValidRequest(d.pod) && WellMade(t.pod)
    ensures var first := Apply(d, t);
            && first.Pass?
            && var second := Apply(d, first.template);
               && second.Pass? && DoneButProbes(d, second.template) && Differing(d.probes, second.template.probes) <= 1
               && Converged(d, t, second.template.pod, k)
  {
    FirstPass(d, t);
    FirstPassEffect(d, t, k);
    var t1 := Apply(d, t).template;
    NextPassEffect(d, t, t1, k);
    SecondPass(d, t1);
    EnvIsSettled(d.pod, StartingPod(d, t), t1.pod, k);
  }

  lemma ThirdPassEffect(d: Desired, t: Template, k: Key)
    requires ValidRequest(d.pod) && WellMade(t.pod)
    ensures Passes(d, t, 3).Pass? && Converged(d, t, Passes(d, t, 3).template.pod, k)
  {
    SecondPassEffect(d, t, k);
    var t1 := Apply(d, t).template;
    var t2 := Apply(d, t1).template;
    NextPassEffect(d, t, t2, k);
    SettledEnvStays(d.pod, StartingEnv(d, t), t2.pod, k);
    ThreePasses(d, t);
  }

  lemma ThreePasses(d: Desired, t: Template)
    requires Apply(d, t).Pass? && Apply(d, Apply(d, t).template).Pass?
    ensures Passes(d, t, 3) == Apply(d, Apply(d, Apply(d, t).template).template)
  {
    assert Passes(d, t, 1) == Apply(d, t);
    assert Passes(d, t, 2) == Apply(d, Apply(d, t).template);
  }

  // Memory, processor and image are the ones asked for, or as they were when none are.
  lemma SettingsConverge(d: Desired, t: Template)
    requires Apply(d, t).Pass?
    ensures var s, before := Apply(d, t).template.settings, t.settings.container;
            && s.placement == d.placement && s.args == d.args
            && s.container.memory == (if d.memory.Some? then d.memory.value else before.memory)
            && s.container.cpu == (if d.cpu.Some? then d.cpu.value else before.cpu)
            && s.container.image == (if d.image.Some? then d.image.value else before.image)
  {
  }

  // After three passes, and for good, the template is exactly this: every volume asked for has its source, and one that
  // was there before keeps it; what is not asked for is as it was; memory, processor and image are the ones asked for,
  // or as they were when none are.
  lemma ConvergesTo(d: Desired, t: Template, n: nat, k: Key)
    requires ValidRequest(d.pod) && WellMade(t.pod) && n >= 3
    ensures var r := Passes(d, t, n);
            && r.Pass? && Converged(d, t, r.template.pod, k) && FieldsConverged(d, t, r.template)
  {
    FieldsConverge(d, t);
    ThirdPassEffect(d, t, k);
    ThirdIsLast(d, t, n);
  }

  predicate FieldsConverged(d: Desired, t: Template, u: Template) {
    var before, after := t.settings.container, u.settings.container;
    && u.labels == d.labels && u.probes == d.probes && u.replicas == d.replicas && u.checksums == d.checksums
    && u.settings.placement == d.placement && u.settings.args == d.args
    && after.memory == (if d.memory.Some? then d.memory.value else before.memory)
    && after.cpu == (if d.cpu.Some? then d.cpu.value else before.cpu)
    && after.image == (if d.image.Some? then d.image.value else before.image)
  }

  lemma FieldsConverge(d: Desired, t: Template)
    requires ValidRequest(d.pod) && WellMade(t.pod)
    ensures var r := Passes(d, t, 3);
            && r.Pass? && FieldsConverged(d, t, r.template)
            && Apply(d, r.template) == Pass(r.template, false, false)
  {
    RollingUpdateConverges(d, t, 1);
    ThreePasses(d, t);
    var t1 := Apply(d, t).template;
    var t2 := Apply(d, t1).template;
    SettingsConverge(d, t);
    SettingsConverge(d, t1);
    SettingsConverge(d, t2);
    var t3 := Apply(d, t2).template;
    assert Passes(d, t3, 1) == Apply(d, t3);
  }

  lemma {:induction false} ThirdIsLast(d: Desired, t: Template, n: nat)
    requires n >= 3 && Passes(d, t, 3).Pass?
    requires Apply(d, Passes(d, t, 3).template) == Pass(Passes(d, t, 3).template, false, false)
    ensures Passes(d, t, n).Pass? && Passes(d, t, n).template == Passes(d, t, 3).template
  {
    if n > 3 {
      ThirdIsLast(d, t, n - 1);
    }
  }
}
