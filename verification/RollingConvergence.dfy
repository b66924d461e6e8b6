/**
 The rolling update of a StatefulSet settles: with the request fixed, at most three applications change anything, and no
 sequence of its helpers ever panics.
 */
module RollingConvergence {
  import opened Operands
  import opened NamedLists
  import opened PodTemplate

  // The volumes that can be removed are there at most once, and mounted exactly when they are there.
  ghost predicate Paired(p: Pod, key: Key) {
    Once(p.volumes, key) && Once(p.mounts, key) && (Has(p.volumes, key) <==> Has(p.mounts, key))
  }

  ghost predicate WellMade(p: Pod) {
    && Paired(p, UserConf) && Paired(p, CustomLibraries) && Paired(p, ExternalArtifacts)
    && Once(p.inits, Download) && (Has(p.inits, Download) <==> Has(p.volumes, ExternalArtifacts))
  }

  // The secret volumes and the hashes asked for have names of their own.
  ghost predicate ValidRequest(d: DesiredPod) {
    && (forall i :: 0 <= i < |d.secretVolumes| ==>
          IsSecretKey(d.secretVolumes[i].key) && !d.secretVolumes[i].key.Identities?)
    && (forall i, j :: 0 <= i < j < |d.secretVolumes| ==> d.secretVolumes[i].key != d.secretVolumes[j].key)
    && (forall i :: 0 <= i < |d.hashes| ==> d.hashes[i].name == KeystoreHash || d.hashes[i].name == TruststoreHash)
    && (forall i, j :: 0 <= i < j < |d.hashes| ==> d.hashes[i].name != d.hashes[j].name)
  }

  // ---- what adding and removing a volume does ----

  // Nothing but the volume `key` and its mount has changed.
  ghost predicate OnlyVolume(p: Pod, q: Pod, key: Key) {
    forall k :: k != key ==>
      && Lookup(q.volumes, k) == Lookup(p.volumes, k) && Lookup(q.mounts, k) == Lookup(p.mounts, k)
      && (Once(p.volumes, k) ==> Once(q.volumes, k)) && (Once(p.mounts, k) ==> Once(q.mounts, k))
  }

  lemma Added(p: Pod, key: Key, source: Source, mount: MountPoint)
    requires !Has(p.volumes, key)
    ensures var q := AddVolume(p, key, source, mount);
            && OnlyVolume(p, q, key) && Lookup(q.volumes, key) == Some(source) && Has(q.mounts, key)
            && (Once(p.volumes, key) ==> Once(q.volumes, key))
            && (!Has(p.mounts, key) && Once(p.mounts, key) ==> Once(q.mounts, key))
  {
    var q := AddVolume(p, key, source, mount);
    AppendEffect(p.volumes, Named(key, source), key);
    AppendEffect(p.mounts, Named(key, mount), key);
    forall k | k != key
      ensures && Lookup(q.volumes, k) == Lookup(p.volumes, k) && Lookup(q.mounts, k) == Lookup(p.mounts, k)
              && (Once(p.volumes, k) ==> Once(q.volumes, k)) && (Once(p.mounts, k) ==> Once(q.mounts, k))
    {
      AppendEffect(p.volumes, Named(key, source), k);
      AppendEffect(p.mounts, Named(key, mount), k);
    }
  }

  lemma Removed(p: Pod, key: Key)
    requires Has(p.volumes, key) && Paired(p, key)
    ensures RemoveVolume(p, key).Patched?
    ensures var q := RemoveVolume(p, key).pod;
            OnlyVolume(p, q, key) && !Has(q.volumes, key) && Paired(q, key) && q.inits == p.inits && q.env == p.env
  {
    var q := RemoveVolume(p, key).pod;
    RemoveEffect(p.volumes, key, key);
    RemoveEffect(p.mounts, key, key);
    forall k | k != key
      ensures && Lookup(q.volumes, k) == Lookup(p.volumes, k) && Lookup(q.mounts, k) == Lookup(p.mounts, k)
              && (Once(p.volumes, k) ==> Once(q.volumes, k)) && (Once(p.mounts, k) ==> Once(q.mounts, k))
    {
      RemoveEffect(p.volumes, key, k);
      RemoveEffect(p.mounts, key, k);
    }
  }

  lemma Resourced(p: Pod, key: Key, source: Source)
    requires Has(p.volumes, key)
    ensures var q := p.(volumes := Put(p.volumes, key, source));
            && OnlyVolume(p, q, key) && Lookup(q.volumes, key) == Some(source)
            && (Once(p.volumes, key) ==> Once(q.volumes, key))
  {
    var q := p.(volumes := Put(p.volumes, key, source));
    PutEffect(p.volumes, key, source, key);
    forall k | k != key
      ensures Lookup(q.volumes, k) == Lookup(p.volumes, k) && (Once(p.volumes, k) ==> Once(q.volumes, k))
    {
      PutEffect(p.volumes, key, source, k);
    }
  }

  // ---- the helpers on removable volumes ----

  // A removable volume other than the one changed is as it was.
  lemma StaysPaired(p: Pod, q: Pod, key: Key, k: Key)
    requires OnlyVolume(p, q, key) && k != key && Paired(p, k)
    ensures Paired(q, k) && (Has(q.volumes, k) <==> Has(p.volumes, k))
  {
    assert Lookup(q.volumes, k) == Lookup(p.volumes, k) && Lookup(q.mounts, k) == Lookup(p.mounts, k);
  }

  predicate OverlayDone(configMap: Option<string>, p: Pod) {
    match configMap
    case None => !Has(p.volumes, UserConf)
    case Some(name) => Lookup(p.volumes, UserConf) == Some(ConfigMap(name))
  }

  predicate ArtifactsDone(artifacts: Option<InitContainer>, p: Pod) {
    Lookup(p.inits, Download) == artifacts
  }

  predicate DependenciesDone(claim: Option<string>, p: Pod) {
    Has(p.volumes, CustomLibraries) <==> claim.Some?
  }

  lemma OverlayRuns(configMap: Option<string>, p: Pod)
    requires WellMade(p)
    ensures var r := ApplyOverlay(configMap, p);
            && r.Patched? && WellMade(r.pod) && OverlayDone(configMap, r.pod) && OnlyVolume(p, r.pod, UserConf)
            && r.pod.inits == p.inits && r.pod.env == p.env
            && (r.changed <==> !OverlayDone(configMap, p)) && (!r.changed ==> r.pod == p)
  {
    if !OverlayDone(configMap, p) {
      if configMap.None? {
        Removed(p, UserConf);
      } else if Has(p.volumes, UserConf) {
        Resourced(p, UserConf, ConfigMap(configMap.value));
      } else {
        Added(p, UserConf, ConfigMap(configMap.value), MountPoint(OVERLAY_PATH, false));
      }
      var q := ApplyOverlay(configMap, p).pod;
      StaysPaired(p, q, UserConf, CustomLibraries);
      StaysPaired(p, q, UserConf, ExternalArtifacts);
    }
  }

  lemma DependenciesRun(claim: Option<string>, p: Pod)
    requires WellMade(p)
    ensures var r := ApplyDependencies(claim, p);
            && r.Patched? && WellMade(r.pod) && DependenciesDone(claim, r.pod) && OnlyVolume(p, r.pod, CustomLibraries)
            && r.pod.inits == p.inits && r.pod.env == p.env
            && (r.changed <==> !DependenciesDone(claim, p)) && (!r.changed ==> r.pod == p)
  {
    if !DependenciesDone(claim, p) {
      if claim.None? {
        Removed(p, CustomLibraries);
      } else {
        Added(p, CustomLibraries, Claim(claim.value), MountPoint(LIBRARIES_PATH, true));
      }
      var q := ApplyDependencies(claim, p).pod;
      StaysPaired(p, q, CustomLibraries, UserConf);
      StaysPaired(p, q, CustomLibraries, ExternalArtifacts);
    }
  }

  lemma ArtifactsRun(artifacts: Option<InitContainer>, p: Pod)
    requires WellMade(p)
    ensures var r := ApplyArtifacts(artifacts, p);
            && r.Patched? && WellMade(r.pod) && ArtifactsDone(artifacts, r.pod)
            && OnlyVolume(p, r.pod, ExternalArtifacts)
            && r.pod.env == p.env
            && (r.changed <==> !ArtifactsDone(artifacts, p)) && (!r.changed ==> r.pod == p)
  {
    if Has(p.inits, Download) {
      if artifacts.None? {
        RemoveEffect(p.inits, Download, Download);
        Removed(p.(inits := Remove(p.inits, Download)), ExternalArtifacts);
      } else {
        PutEffect(p.inits, Download, artifacts.value, Download);
      }
    } else if artifacts.Some? {
      AppendEffect(p.inits, Named(Download, artifacts.value), Download);
      Added(p, ExternalArtifacts, EmptyDir, MountPoint(ARTIFACTS_PATH, true));
    }
  }

  // ---- the helpers on secrets and hashes ----

  // Only secret volumes, and environment variables, have changed.
  ghost predicate OnlySecrets(p: Pod, q: Pod) {
    q.inits == p.inits && forall k :: !IsSecretKey(k) ==>
      && Lookup(q.volumes, k) == Lookup(p.volumes, k) && Lookup(q.mounts, k) == Lookup(p.mounts, k)
      && (Once(p.volumes, k) ==> Once(q.volumes, k)) && (Once(p.mounts, k) ==> Once(q.mounts, k))
  }

  predicate IdentityDone(secret: string, p: Pod) {
    Has(p.volumes, Identities) ==> Lookup(p.volumes, Identities) == Some(Secret(secret))
  }

  predicate AuthenticationDone(hash: Option<string>, p: Pod) {
    hash.Some? ==> Has(p.volumes, Identities) && Lookup(p.env, IdentitiesHash) == hash
  }

  predicate SecretDone(v: SecretVolume, p: Pod) {
    Has(p.volumes, v.key) && Lookup(p.mounts, v.key) == Some(MountPoint(v.path, false))
  }

  predicate SecretsDone(vs: seq<SecretVolume>, p: Pod) {
    forall i :: 0 <= i < |vs| ==> SecretDone(vs[i], p)
  }

  predicate HashesDone(hashes: seq<EnvVar>, env: seq<EnvVar>) {
    forall i :: 0 <= i < |hashes| ==> Lookup(env, hashes[i].name) == Some(hashes[i].value)
  }

  lemma SetEnvRuns(env: seq<EnvVar>, key: Key, value: string, k: Key)
    ensures var (next, changed) := SetEnv(env, key, value);
            && Lookup(next, k) == (if k == key then Some(value) else Lookup(env, k))
            && (changed <==> Lookup(env, key) != Some(value)) && (!changed ==> next == env)
  {
    if Has(env, key) {
      PutEffect(env, key, value, k);
    } else {
      AppendEffect(env, Named(key, value), k);
    }
  }

  lemma {:induction false} SetHashesRun(hashes: seq<EnvVar>, env: seq<EnvVar>)
    requires forall i, j :: 0 <= i < j < |hashes| ==> hashes[i].name != hashes[j].name
    ensures var (next, changed) := SetHashes(hashes, env);
            && HashesDone(hashes, next) && (changed <==> !HashesDone(hashes, env)) && (!changed ==> next == env)
            && forall k :: (forall i :: 0 <= i < |hashes| ==> hashes[i].name != k) ==> Lookup(next, k) == Lookup(env, k)
  {
    if hashes != [] {
      var front, last := hashes[..|hashes| - 1], hashes[|hashes| - 1];
      SetHashesRun(front, env);
      var (env1, before) := SetHashes(front, env);
      var (next, changed) := SetEnv(env1, last.name, last.value);
      assert forall i :: 0 <= i < |front| ==> front[i] == hashes[i];
      assert Lookup(env1, last.name) == Lookup(env, last.name);
      SetEnvRuns(env1, last.name, last.value, last.name);
      forall k | k != last.name ensures Lookup(next, k) == Lookup(env1, k) {
        SetEnvRuns(env1, last.name, last.value, k);
      }
      assert HashesDone(hashes, env) <==> HashesDone(front, env) && Lookup(env, last.name) == Some(last.value);
    }
  }

  lemma IdentityRuns(secret: string, p: Pod)
    ensures var (q, changed) := ApplyIdentitySecret(secret, p);
            && IdentityDone(secret, q) && OnlySecrets(p, q) && q.env == p.env && q.mounts == p.mounts
            && (forall k :: Has(q.volumes, k) <==> Has(p.volumes, k))
            && (changed <==> !IdentityDone(secret, p)) && (!changed ==> q == p)
  {
    if !IdentityDone(secret, p) {
      Resourced(p, Identities, Secret(secret));
      forall k ensures Has(Put(p.volumes, Identities, Secret(secret)), k) <==> Has(p.volumes, k) {
        PutEffect(p.volumes, Identities, Secret(secret), k);
      }
    }
  }

  lemma AuthenticationRuns(hash: Option<string>, secret: string, p: Pod)
    requires IdentityDone(secret, p)
    ensures var (q, changed) := ApplyAuthentication(hash, secret, p);
            && IdentityDone(secret, q) && OnlySecrets(p, q) && OnlyVolume(p, q, Identities)
            && (hash.Some? ==> Has(q.volumes, Identities))
            && (Has(p.volumes, Identities)
                ==> AuthenticationDone(hash, q) && q.volumes == p.volumes && q.mounts == p.mounts)
            && (AuthenticationDone(hash, p) ==> q == p && !changed)
            && (!AuthenticationDone(hash, p) ==> changed)
            && (hash.None? || Has(p.volumes, Identities)
                ==> forall k :: k != IdentitiesHash ==> Lookup(q.env, k) == Lookup(p.env, k))
  {
    if hash.Some? {
      if Has(p.volumes, Identities) {
        forall k ensures var (env, _) := SetEnv(p.env, IdentitiesHash, hash.value);
                         Lookup(env, k) == if k == IdentitiesHash then hash else Lookup(p.env, k)
        {
          SetEnvRuns(p.env, IdentitiesHash, hash.value, k);
        }
        SetEnvRuns(p.env, IdentitiesHash, hash.value, IdentitiesHash);
      } else {
        Added(p, Identities, Secret(secret), MountPoint(IDENTITIES_PATH, false));
      }
    }
  }

  lemma SecretRuns(v: SecretVolume, p: Pod)
    ensures var (q, changed) := AddSecretVolume(v, p);
            && SecretDone(v, q) && OnlyVolume(p, q, v.key) && q.env == p.env && q.inits == p.inits
            && (changed <==> !SecretDone(v, p)) && (!changed ==> q == p)
  {
    var (q, changed) := AddSecretVolume(v, p);
    var mount := MountPoint(v.path, false);
    forall k
      ensures && Lookup(q.volumes, k)
              == (if k == v.key && !Has(p.volumes, k) then Some(Secret(v.secret)) else Lookup(p.volumes, k))
              && Lookup(q.mounts, k) == (if k == v.key then Some(mount) else Lookup(p.mounts, k))
              && (k != v.key
                  ==> (Once(p.volumes, k) ==> Once(q.volumes, k)) && (Once(p.mounts, k) ==> Once(q.mounts, k)))
    {
      AppendEffect(p.volumes, Named(v.key, Secret(v.secret)), k);
      if Has(p.mounts, v.key) {
        PutEffect(p.mounts, v.key, mount, k);
      } else {
        AppendEffect(p.mounts, Named(v.key, mount), k);
      }
    }
  }

  predicate Among(vs: seq<SecretVolume>, k: Key) {
    exists i :: 0 <= i < |vs| && vs[i].key == k
  }

  // Only the volumes `vs` and their mounts have changed.
  ghost predicate OnlyThese(p: Pod, q: Pod, vs: seq<SecretVolume>) {
    forall k :: !Among(vs, k) ==>
      && Lookup(q.volumes, k) == Lookup(p.volumes, k) && Lookup(q.mounts, k) == Lookup(p.mounts, k)
      && (Once(p.volumes, k) ==> Once(q.volumes, k)) && (Once(p.mounts, k) ==> Once(q.mounts, k))
  }

  lemma OneMore(p: Pod, p1: Pod, q: Pod, vs: seq<SecretVolume>)
    requires vs != [] && OnlyThese(p, p1, vs[..|vs| - 1]) && OnlyVolume(p1, q, vs[|vs| - 1].key)
    ensures OnlyThese(p, q, vs)
  {
    var front, last := vs[..|vs| - 1], vs[|vs| - 1];
    forall k | k == last.key || Among(front, k) ensures Among(vs, k) {
      if k == last.key {
        assert vs[|vs| - 1].key == k;
      } else {
        var i :| 0 <= i < |front| && front[i].key == k;
        assert vs[i].key == k;
      }
    }
  }

  lemma DoneStays(vs: seq<SecretVolume>, p1: Pod, q: Pod, last: SecretVolume)
    requires SecretsDone(vs, p1) && OnlyVolume(p1, q, last.key) && !Among(vs, last.key)
    ensures SecretsDone(vs, q)
  {
    forall i | 0 <= i < |vs| ensures SecretDone(vs[i], q) {
      assert vs[i].key != last.key;
      assert SecretDone(vs[i], p1);
    }
  }

  lemma DoneBefore(vs: seq<SecretVolume>, p: Pod, p1: Pod)
    requires vs != [] && OnlyThese(p, p1, vs[..|vs| - 1])
    requires forall i, j :: 0 <= i < j < |vs| ==> vs[i].key != vs[j].key
    ensures !Among(vs[..|vs| - 1], vs[|vs| - 1].key)
    ensures SecretDone(vs[|vs| - 1], p1) <==> SecretDone(vs[|vs| - 1], p)
  {
  }

  lemma DoneSplits(vs: seq<SecretVolume>, p: Pod)
    requires vs != []
    ensures SecretsDone(vs, p) <==> SecretsDone(vs[..|vs| - 1], p) && SecretDone(vs[|vs| - 1], p)
  {
    var front := vs[..|vs| - 1];
    assert forall i :: 0 <= i < |front| ==> front[i] == vs[i];
  }

  lemma {:induction false} SecretsRun(vs: seq<SecretVolume>, p: Pod)
    requires forall i, j :: 0 <= i < j < |vs| ==> vs[i].key != vs[j].key
    ensures var (q, changed) := AddSecretVolumes(vs, p);
            && SecretsDone(vs, q) && OnlyThese(p, q, vs) && q.env == p.env && q.inits == p.inits
            && (changed <==> !SecretsDone(vs, p)) && (!changed ==> q == p)
  {
    if vs != [] {
      var front, last := vs[..|vs| - 1], vs[|vs| - 1];
      SecretsRun(front, p);
      var p1 := AddSecretVolumes(front, p).0;
      var q := AddSecretVolume(last, p1).0;
      SecretRuns(last, p1);
      OneMore(p, p1, q, vs);
      DoneBefore(vs, p, p1);
      DoneStays(front, p1, q, last);
      DoneSplits(vs, p);
      DoneSplits(vs, q);
    }
  }

  lemma SecretsAreSecrets(p: Pod, q: Pod, vs: seq<SecretVolume>)
    requires OnlyThese(p, q, vs) && q.inits == p.inits
    requires forall i :: 0 <= i < |vs| ==> IsSecretKey(vs[i].key) && !vs[i].key.Identities?
    ensures OnlySecrets(p, q) && Lookup(q.volumes, Identities) == Lookup(p.volumes, Identities)
  {
    forall k | !IsSecretKey(k) || k.Identities? ensures !Among(vs, k) {
    }
  }

  // ---- one pass over the pod ----

  // What a pass establishes at once; the hash of the identities may take a second one.
  ghost predicate NearlyDone(d: DesiredPod, p: Pod) {
    && WellMade(p)
    && OverlayDone(d.configMap, p) && ArtifactsDone(d.artifacts, p) && DependenciesDone(d.claim, p)
    && IdentityDone(d.identitySecret, p) && SecretsDone(d.secretVolumes, p) && HashesDone(d.hashes, p.env)
    && (d.identitiesHash.Some? ==> Has(p.volumes, Identities))
  }

  ghost predicate PodDone(d: DesiredPod, p: Pod) {
    NearlyDone(d, p) && AuthenticationDone(d.identitiesHash, p)
  }

  lemma SecretsKeepTheRest(d: DesiredPod, p: Pod, q: Pod)
    requires OnlySecrets(p, q)
    ensures WellMade(p) ==> WellMade(q)
    ensures OverlayDone(d.configMap, q) == OverlayDone(d.configMap, p)
    ensures ArtifactsDone(d.artifacts, q) == ArtifactsDone(d.artifacts, p)
    ensures DependenciesDone(d.claim, q) == DependenciesDone(d.claim, p)
  {
    assert Lookup(q.volumes, UserConf) == Lookup(p.volumes, UserConf)
           && Lookup(q.mounts, UserConf) == Lookup(p.mounts, UserConf);
    assert Lookup(q.volumes, CustomLibraries) == Lookup(p.volumes, CustomLibraries)
           && Lookup(q.mounts, CustomLibraries) == Lookup(p.mounts, CustomLibraries);
    assert Lookup(q.volumes, ExternalArtifacts) == Lookup(p.volumes, ExternalArtifacts)
           && Lookup(q.mounts, ExternalArtifacts) == Lookup(p.mounts, ExternalArtifacts);
  }

  predicate SecretPartDone(d: DesiredPod, p: Pod) {
    IdentityDone(d.identitySecret, p) && AuthenticationDone(d.identitiesHash, p) && SecretsDone(d.secretVolumes, p)
      && HashesDone(d.hashes, p.env)
  }

  // The first two of the four helpers on secrets.
  lemma IdentitiesRun(d: DesiredPod, p: Pod)
    ensures var (p1, c1) := ApplyIdentitySecret(d.identitySecret, p);
            var (q, c2) := ApplyAuthentication(d.identitiesHash, d.identitySecret, p1);
            && OnlySecrets(p, q) && IdentityDone(d.identitySecret, q)
            && (d.identitiesHash.Some? ==> Has(q.volumes, Identities))
            && (Has(p.volumes, Identities) ==> AuthenticationDone(d.identitiesHash, q))
            && (IdentityDone(d.identitySecret, p) && AuthenticationDone(d.identitiesHash, p) ==> q == p && !c1 && !c2)
  {
    IdentityRuns(d.identitySecret, p);
    var (p1, c1) := ApplyIdentitySecret(d.identitySecret, p);
    AuthenticationRuns(d.identitiesHash, d.identitySecret, p1);
    var (q, c2) := ApplyAuthentication(d.identitiesHash, d.identitySecret, p1);
    assert OnlySecrets(p, p1) && OnlySecrets(p1, q);
  }

  // The last two.
  lemma SecretsAndHashesRun(d: DesiredPod, p: Pod)
    requires ValidRequest(d)
    ensures var (p1, c1) := AddSecretVolumes(d.secretVolumes, p);
            var (env, c2) := SetHashes(d.hashes, p1.env);
            var q := p1.(env := env);
            && OnlySecrets(p, q) && SecretsDone(d.secretVolumes, q) && HashesDone(d.hashes, q.env)
            && Lookup(q.volumes, Identities) == Lookup(p.volumes, Identities)
            && Lookup(q.env, IdentitiesHash) == Lookup(p.env, IdentitiesHash)
            && (SecretsDone(d.secretVolumes, p) && HashesDone(d.hashes, p.env) ==> q == p && !c1 && !c2)
  {
    SecretsRun(d.secretVolumes, p);
    var (p1, c1) := AddSecretVolumes(d.secretVolumes, p);
    SecretsAreSecrets(p, p1, d.secretVolumes);
    SetHashesRun(d.hashes, p1.env);
    var (env, c2) := SetHashes(d.hashes, p1.env);
    assert Lookup(env, IdentitiesHash) == Lookup(p1.env, IdentitiesHash);
    assert SecretsDone(d.secretVolumes, p1.(env := env)) by {
      assert forall i :: 0 <= i < |d.secretVolumes| ==> SecretDone(d.secretVolumes[i], p1);
    }
  }

  lemma UpdateSecretsRuns(d: DesiredPod, p: Pod)
    requires ValidRequest(d)
    ensures var (q, changed) := UpdateSecrets(d, p);
            && OnlySecrets(p, q) && IdentityDone(d.identitySecret, q) && SecretsDone(d.secretVolumes, q)
            && HashesDone(d.hashes, q.env)
            && (d.identitiesHash.Some? ==> Has(q.volumes, Identities))
            && (Has(p.volumes, Identities) ==> AuthenticationDone(d.identitiesHash, q))
            && (SecretPartDone(d, p) ==> q == p && !changed)
  {
    IdentitiesRun(d, p);
    var p1 := ApplyIdentitySecret(d.identitySecret, p).0;
    SecretsAndHashesRun(d, ApplyAuthentication(d.identitiesHash, d.identitySecret, p1).0);
  }

  lemma UpdateVolumesRuns(d: DesiredPod, p: Pod)
    requires WellMade(p)
    ensures var r := UpdateVolumes(d, p);
            && r.Patched? && WellMade(r.pod) && r.pod.env == p.env
            && OverlayDone(d.configMap, r.pod) && ArtifactsDone(d.artifacts, r.pod) && DependenciesDone(d.claim, r.pod)
            && Lookup(r.pod.volumes, Identities) == Lookup(p.volumes, Identities)
            && (OverlayDone(d.configMap, p) && ArtifactsDone(d.artifacts, p) && DependenciesDone(d.claim, p)
                ==> r == Patched(p, false))
  {
    OverlayRuns(d.configMap, p);
    var p1 := ApplyOverlay(d.configMap, p).pod;
    ArtifactsRun(d.artifacts, p1);
    var p2 := ApplyArtifacts(d.artifacts, p1).pod;
    DependenciesRun(d.claim, p2);
    var p3 := ApplyDependencies(d.claim, p2).pod;
    assert Lookup(p1.volumes, CustomLibraries) == Lookup(p.volumes, CustomLibraries)
           && Lookup(p1.volumes, Identities) == Lookup(p.volumes, Identities);
    assert Lookup(p2.volumes, UserConf) == Lookup(p1.volumes, UserConf)
           && Lookup(p2.volumes, CustomLibraries) == Lookup(p1.volumes, CustomLibraries)
           && Lookup(p2.volumes, Identities) == Lookup(p1.volumes, Identities);
    assert Lookup(p3.volumes, UserConf) == Lookup(p2.volumes, UserConf)
           && Lookup(p3.volumes, Identities) == Lookup(p2.volumes, Identities);
  }

  // A pass over a well-made pod does not panic and leaves it well made, with everything as asked for but perhaps the
  // hash of the identities; if the identities volume was there before, that too. A pod as asked for is left alone.
  lemma UpdatePodRuns(d: DesiredPod, p: Pod)
    requires ValidRequest(d) && WellMade(p)
    ensures var r := UpdatePod(d, p);
            && r.Patched? && NearlyDone(d, r.pod)
            && (Has(p.volumes, Identities) || d.identitiesHash.None? ==> PodDone(d, r.pod))
            && (PodDone(d, p) ==> r == Patched(p, false))
  {
    UpdateVolumesRuns(d, p);
    var p1 := UpdateVolumes(d, p).pod;
    UpdateSecretsRuns(d, p1);
    SecretsKeepTheRest(d, p1, UpdateSecrets(d, p1).0);
  }

  // ---- the helpers in any order ----

  datatype Helper = Overlay(configMap: Option<string>) | Artifacts(artifacts: Option<InitContainer>)
                  | Dependencies(claim: Option<string>) | Secrets(d: DesiredPod)

  function Help(h: Helper, p: Pod): Patch {
    match h
    case Overlay(configMap) => ApplyOverlay(configMap, p)
    case Artifacts(artifacts) => ApplyArtifacts(artifacts, p)
    case Dependencies(claim) => ApplyDependencies(claim, p)
    case Secrets(d) => var (q, changed) := UpdateSecrets(d, p); Patched(q, changed)
  }

  function HelpAll(hs: seq<Helper>, p: Pod): Patch {
    if hs == [] then Patched(p, false)
    else match HelpAll(hs[..|hs| - 1], p)
      case Panicked => Panicked
      case Patched(q, _) => Help(hs[|hs| - 1], q)
  }

  lemma HelpKeeps(h: Helper, p: Pod)
    requires WellMade(p) && (h.Secrets? ==> ValidRequest(h.d))
    ensures Help(h, p).Patched? && WellMade(Help(h, p).pod)
  {
    match h
    case Overlay(configMap) => OverlayRuns(configMap, p);
    case Artifacts(artifacts) => ArtifactsRun(artifacts, p);
    case Dependencies(claim) => DependenciesRun(claim, p);
    case Secrets(d) =>
      UpdateSecretsRuns(d, p);
      SecretsKeepTheRest(d, p, UpdateSecrets(d, p).0);
  }

  // Any sequence of the helpers keeps every removable volume present at most once and mounted exactly when present, so
  // no deletion ever looks for a mount that is not there.
  lemma {:induction false} HelpersKeepVolumesPaired(hs: seq<Helper>, p: Pod)
    requires WellMade(p) && forall i :: 0 <= i < |hs| && hs[i].Secrets? ==> ValidRequest(hs[i].d)
    ensures HelpAll(hs, p).Patched? && WellMade(HelpAll(hs, p).pod)
  {
    if hs != [] {
      HelpersKeepVolumesPaired(hs[..|hs| - 1], p);
      HelpKeeps(hs[|hs| - 1], HelpAll(hs[..|hs| - 1], p).pod);
    }
  }

  // Adding and then removing restores the pod, element for element.
  lemma OverlayUndone(name: string, p: Pod)
    requires !Has(p.volumes, UserConf) && !Has(p.mounts, UserConf)
    ensures ApplyOverlay(None, ApplyOverlay(Some(name), p).pod) == Patched(p, true)
  {
    AppendThenRemove(p.volumes, Named(UserConf, ConfigMap(name)));
    AppendThenRemove(p.mounts, Named(UserConf, MountPoint(OVERLAY_PATH, false)));
  }

  lemma DependenciesUndone(claim: string, p: Pod)
    requires !Has(p.volumes, CustomLibraries) && !Has(p.mounts, CustomLibraries)
    ensures ApplyDependencies(None, ApplyDependencies(Some(claim), p).pod) == Patched(p, true)
  {
    AppendThenRemove(p.volumes, Named(CustomLibraries, Claim(claim)));
    AppendThenRemove(p.mounts, Named(CustomLibraries, MountPoint(LIBRARIES_PATH, true)));
  }

  lemma ArtifactsUndone(a: InitContainer, p: Pod)
    requires !Has(p.inits, Download) && !Has(p.volumes, ExternalArtifacts) && !Has(p.mounts, ExternalArtifacts)
    ensures ApplyArtifacts(None, ApplyArtifacts(Some(a), p).pod) == Patched(p, true)
  {
    AppendThenRemove(p.inits, Named(Download, a));
    AppendThenRemove(p.volumes, Named(ExternalArtifacts, EmptyDir));
    AppendThenRemove(p.mounts, Named(ExternalArtifacts, MountPoint(ARTIFACTS_PATH, true)));
  }

  // ---- the whole template ----

  function Differing(d: Probes, p: Probes): nat {
    (if p.liveness != d.liveness then 1 else 0) + (if p.readiness != d.readiness then 1 else 0)
      + (if p.startup != d.startup then 1 else 0)
  }

  // Everything but the probes is as asked for.
  ghost predicate DoneButProbes(d: Desired, t: Template) {
    && t.labels == d.labels && t.settings == Wanted(d, t.settings) && t.checksums == d.checksums
    && t.replicas == d.replicas
    && PodDone(d.pod, t.pod)
  }

  // As a first pass leaves the template.
  ghost predicate NearlyDoneButProbes(d: Desired, t: Template) {
    && t.labels == d.labels && t.settings == Wanted(d, t.settings) && t.checksums == d.checksums
    && t.replicas == d.replicas
    && NearlyDone(d.pod, t.pod)
  }

  lemma EnvDoesNotMatter(p: Pod, env: seq<EnvVar>)
    requires WellMade(p)
    ensures WellMade(p.(env := env))
  {
  }

  // The pod a pass starts from.
  function StartingPod(d: Desired, t: Template): Pod {
    t.pod.(env := if t.checksums.podEnvs != d.checksums.podEnvs then d.pod.env else t.pod.env)
  }

  lemma PassFields(d: Desired, t: Template)
    requires UpdatePod(d.pod, StartingPod(d, t)).Patched?
    ensures var r := Apply(d, t);
            && r.Pass? && r.template.pod == UpdatePod(d.pod, StartingPod(d, t)).pod
            && r.template.labels == d.labels && r.template.settings == Wanted(d, r.template.settings)
            && r.template.checksums == d.checksums && r.template.replicas == d.replicas
            && r.template.probes == PatchProbes(d.probes, t.probes).0
  {
  }

  lemma FirstPass(d: Desired, t: Template)
    requires ValidRequest(d.pod) && WellMade(t.pod)
    ensures var r := Apply(d, t);
            && r.Pass? && NearlyDoneButProbes(d, r.template)
            && Differing(d.probes, r.template.probes) <= 2
  {
    var p := StartingPod(d, t);
    EnvDoesNotMatter(t.pod, p.env);
    UpdatePodRuns(d.pod, p);
    PassFields(d, t);
  }

  lemma SecondPass(d: Desired, t: Template)
    requires ValidRequest(d.pod) && NearlyDoneButProbes(d, t) && Differing(d.probes, t.probes) <= 2
    ensures var r := Apply(d, t);
            r.Pass? && DoneButProbes(d, r.template) && Differing(d.probes, r.template.probes) <= 1
  {
    UpdatePodRuns(d.pod, t.pod);
    assert t.pod.(env := t.pod.env) == t.pod;
  }

  // From there on a pass patches one probe, if one differs, and nothing else.
  lemma LaterPass(d: Desired, t: Template)
    requires ValidRequest(d.pod) && DoneButProbes(d, t)
    ensures var r, n := Apply(d, t), Differing(d.probes, t.probes);
            && r.Pass? && r.template == t.(probes := r.template.probes) && DoneButProbes(d, r.template)
            && Differing(d.probes, r.template.probes) == (if n == 0 then 0 else n - 1)
            && (r.stored <==> n > 0) && (n == 0 ==> r.template == t)
  {
    UpdatePodRuns(d.pod, t.pod);
    assert t.pod.(env := t.pod.env) == t.pod;
  }

  lemma Unchanged(d: Desired, t: Template)
    requires ValidRequest(d.pod) && DoneButProbes(d, t) && t.probes == d.probes
    ensures Apply(d, t) == Pass(t, false, false)
  {
    UpdatePodRuns(d.pod, t.pod);
    assert t.pod.(env := t.pod.env) == t.pod;
  }

  function Passes(d: Desired, t: Template, n: nat): Pass {
    if n == 0 then Pass(t, false, false)
    else match Passes(d, t, n - 1)
      case Crash => Crash
      case Pass(u, _, _) => Apply(d, u)
  }

  lemma {:induction false} SettledForGood(d: Desired, t: Template, n: nat)
    requires Apply(d, t) == Pass(t, false, false)
    ensures Passes(d, t, n) == Pass(t, false, false)
  {
    if n > 0 {
      SettledForGood(d, t, n - 1);
    }
  }

  // Convergence: with the request fixed, at most three applications change anything. After the third everything is as
  // asked for, and every later one leaves the template as it is and reports nothing, so the pods are not rolled for
  // ever.
  lemma RollingUpdateConverges(d: Desired, t: Template, n: nat)
    requires ValidRequest(d.pod) && WellMade(t.pod)
    ensures var first := Apply(d, t);
            && first.Pass?
            && var second := Apply(d, first.template);
            && second.Pass?
            && var third := Apply(d, second.template);
            && third.Pass? && DoneButProbes(d, third.template) && third.template.probes == d.probes
            && Passes(d, third.template, n) == Pass(third.template, false, false)
  {
    FirstPass(d, t);
    var t1 := Apply(d, t).template;
    SecondPass(d, t1);
    var t2 := Apply(d, t1).template;
    LaterPass(d, t2);
    var t3 := Apply(d, t2).template;
    Unchanged(d, t3);
    SettledForGood(d, t3, n);
  }

  // The bound is reached: when everything but the probes is as asked for, the pods are rolled once for every probe that
  // differs, up to three times for what one pass could have done.
  lemma {:induction false} OneRollPerProbe(d: Desired, t: Template, n: nat)
    requires ValidRequest(d.pod) && DoneButProbes(d, t) && n > 0
    ensures var r := Passes(d, t, n);
            && r.Pass? && (r.stored <==> n <= Differing(d.probes, t.probes))
            && DoneButProbes(d, r.template)
            && Differing(d.probes, r.template.probes)
               == (if n <= Differing(d.probes, t.probes) then Differing(d.probes, t.probes) - n else 0)
  {
    if n > 1 {
      OneRollPerProbe(d, t, n - 1);
      LaterPass(d, Passes(d, t, n - 1).template);
    } else {
      assert Passes(d, t, 0) == Pass(t, false, false);
      LaterPass(d, t);
    }
  }
}
