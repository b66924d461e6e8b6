/**
 The rolling update as the operator executes it: the lists and fields of the template are changed in place, and the
 reasons for an update are collected on the way. Every method is proved to do exactly what PodTemplate says.
 */
module StatefulSetUpdater {
  import opened Operands
  import opened NamedLists
  import opened PodTemplate

  class Updater {
    var labels: map<string, string>
    var settings: Settings
    var probes: Probes
    var checksums: Checksums
    var volumes: seq<Volume>
    var mounts: seq<Mount>
    var inits: seq<Init>
    var env: seq<EnvVar>
    var replicas: nat

    function PodView(): Pod
      reads this
    {
      Pod(volumes, mounts, inits, env)
    }

    function View(): Template
      reads this
    {
      Template(labels, settings, probes, checksums, PodView(), replicas)
    }

    constructor (t: Template)
      ensures View() == t
    {
      labels, settings, probes, checksums, replicas := t.labels, t.settings, t.probes, t.checksums, t.replicas;
      volumes, mounts, inits, env := t.pod.volumes, t.pod.mounts, t.pod.inits, t.pod.env;
    }

    // Cutting a volume and its mount out of their lists; an index of -1 is a panic.
    method DeleteVolume(key: Key, volumePosition: int) returns (panicked: bool)
      requires volumePosition == Index(volumes, key)
      modifies this`volumes, this`mounts
      ensures panicked <==> RemoveVolume(old(PodView()), key).Panicked?
      ensures !panicked ==> PodView() == RemoveVolume(old(PodView()), key).pod
    {
      var volumeMountPosition := Find(mounts, key);
      if volumePosition < 0 || volumeMountPosition < 0 {
        return true;
      }
      volumes := volumes[..volumePosition] + volumes[volumePosition + 1..];
      mounts := mounts[..volumeMountPosition] + mounts[volumeMountPosition + 1..];
      panicked := false;
    }

    method ApplyOverlayConfigVolume(configMap: Option<string>) returns (updated: bool, panicked: bool)
      modifies this`volumes, this`mounts
      ensures panicked <==> ApplyOverlay(configMap, old(PodView())).Panicked?
      ensures !panicked ==> Patched(PodView(), updated) == ApplyOverlay(configMap, old(PodView()))
    {
      updated, panicked := false, false;
      var volumePosition := Find(volumes, UserConf);
      if configMap.Some? {
        if volumePosition < 0 {
          mounts := mounts + [Named(UserConf, MountPoint(OVERLAY_PATH, false))];
          volumes := volumes + [Named(UserConf, ConfigMap(configMap.value))];
          updated := true;
        } else if volumes[volumePosition].value != ConfigMap(configMap.value) {
          volumes := volumes[volumePosition := Named(UserConf, ConfigMap(configMap.value))];
          updated := true;
        }
      }
      if configMap.None? && volumePosition >= 0 {
        panicked := DeleteVolume(UserConf, volumePosition);
        updated := true;
      }
    }

    method ApplyExternalDependenciesVolume(claim: Option<string>) returns (updated: bool, panicked: bool)
      modifies this`volumes, this`mounts
      ensures panicked <==> ApplyDependencies(claim, old(PodView())).Panicked?
      ensures !panicked ==> Patched(PodView(), updated) == ApplyDependencies(claim, old(PodView()))
    {
      updated, panicked := false, false;
      var volumePosition := Find(volumes, CustomLibraries);
      if claim.Some? && volumePosition < 0 {
        mounts := mounts + [Named(CustomLibraries, MountPoint(LIBRARIES_PATH, true))];
        volumes := volumes + [Named(CustomLibraries, Claim(claim.value))];
        updated := true;
      } else if claim.None? && volumePosition >= 0 {
        panicked := DeleteVolume(CustomLibraries, volumePosition);
        updated := true;
      }
    }

    method ApplyExternalArtifactsDownload(artifacts: Option<InitContainer>) returns (updated: bool, panicked: bool)
      modifies this`volumes, this`mounts, this`inits
      ensures panicked <==> ApplyArtifacts(artifacts, old(PodView())).Panicked?
      ensures !panicked ==> Patched(PodView(), updated) == ApplyArtifacts(artifacts, old(PodView()))
    {
      updated, panicked := false, false;
      var containerPosition := Find(inits, Download);
      if artifacts.Some? {
        if containerPosition >= 0 {
          var container := inits[containerPosition].value;
          if container.libs != artifacts.value.libs {
            container := container.(libs := artifacts.value.libs);
            inits := inits[containerPosition := Named(Download, container)];
            updated := true;
          }
          if container.resources != artifacts.value.resources {
            inits := inits[containerPosition := Named(Download, container.(resources := artifacts.value.resources))];
            updated := true;
          }
        } else {
          inits := inits + [Named(Download, artifacts.value)];
          mounts := mounts + [Named(ExternalArtifacts, MountPoint(ARTIFACTS_PATH, true))];
          volumes := volumes + [Named(ExternalArtifacts, EmptyDir)];
          updated := true;
        }
      } else if containerPosition >= 0 {
        var volumePosition := Find(volumes, ExternalArtifacts);
        inits := inits[..containerPosition] + inits[containerPosition + 1..];
        panicked := DeleteVolume(ExternalArtifacts, volumePosition);
        updated := true;
      }
    }

    method UpdateStatefulSetEnv(key: Key, value: string) returns (updated: bool)
      modifies this`env
      ensures (env, updated) == SetEnv(old(env), key, value)
    {
      var envIndex := Find(env, key);
      if envIndex < 0 {
        env := env + [Named(key, value)];
        return true;
      }
      if env[envIndex].value != value {
        env := env[envIndex := Named(key, value)];
        return true;
      }
      updated := false;
    }

    method ReplaceIdentitySecret(secret: string) returns (updated: bool)
      modifies this`volumes
      ensures (PodView(), updated) == ApplyIdentitySecret(secret, old(PodView()))
    {
      var secretIndex := Find(volumes, Identities);
      updated := secretIndex >= 0 && volumes[secretIndex].value != Secret(secret);
      if updated {
        volumes := volumes[secretIndex := Named(Identities, Secret(secret))];
      }
    }

    method UpdateAuthentication(hash: Option<string>, secret: string) returns (updated: bool)
      modifies this`volumes, this`mounts, this`env
      ensures (PodView(), updated) == ApplyAuthentication(hash, secret, old(PodView()))
    {
      if hash.None? {
        return false;
      }
      var secretIndex := Find(volumes, Identities);
      if secretIndex >= 0 {
        updated := UpdateStatefulSetEnv(IdentitiesHash, hash.value);
      } else {
        volumes := volumes + [Named(Identities, Secret(secret))];
        mounts := mounts + [Named(Identities, MountPoint(IDENTITIES_PATH, false))];
        env := env + [Named(IdentitiesHash, hash.value)];
        updated := true;
      }
    }

    method AddSecretVolume(v: SecretVolume) returns (updated: bool)
      modifies this`volumes, this`mounts
      ensures (PodView(), updated) == PodTemplate.AddSecretVolume(v, old(PodView()))
    {
      updated := false;
      var volumePosition := Find(volumes, v.key);
      if volumePosition < 0 {
        volumes := volumes + [Named(v.key, Secret(v.secret))];
        updated := true;
      }
      var mount := MountPoint(v.path, false);
      var index := Find(mounts, v.key);
      if index < 0 {
        mounts := mounts + [Named(v.key, mount)];
        updated := true;
      } else {
        updated := mounts[index].value != mount || updated;
        mounts := mounts[index := Named(v.key, mount)];
      }
    }

    method AddSecretVolumes(vs: seq<SecretVolume>) returns (updated: bool)
      modifies this`volumes, this`mounts
      ensures (PodView(), updated) == PodTemplate.AddSecretVolumes(vs, old(PodView()))
    {
      updated := false;
      for k := 0 to |vs|
        invariant env == old(env) && inits == old(inits)
        invariant (PodView(), updated) == PodTemplate.AddSecretVolumes(vs[..k], old(PodView()))
      {
        assert vs[..k + 1][..k] == vs[..k];
        var added := AddSecretVolume(vs[k]);
        updated := added || updated;
      }
      assert vs[..|vs|] == vs;
    }

    method UpdateHashes(hashes: seq<EnvVar>) returns (updated: bool)
      modifies this`env
      ensures (env, updated) == SetHashes(hashes, old(env))
    {
      updated := false;
      for k := 0 to |hashes|
        invariant (env, updated) == SetHashes(hashes[..k], old(env))
      {
        assert hashes[..k + 1][..k] == hashes[..k];
        var changed := UpdateStatefulSetEnv(hashes[k].name, hashes[k].value);
        updated := changed || updated;
      }
      assert hashes[..|hashes|] == hashes;
    }

    // A chain of alternatives stops at the first probe that differs.
    method UpdateProbes(d: Probes) returns (updated: bool)
      modifies this`probes
      ensures (probes, updated) == PatchProbes(d, old(probes))
    {
      updated := true;
      if probes.liveness != d.liveness {
        probes := probes.(liveness := d.liveness);
      } else if probes.readiness != d.readiness {
        probes := probes.(readiness := d.readiness);
      } else if probes.startup != d.startup {
        probes := probes.(startup := d.startup);
      } else {
        updated := false;
      }
    }

    // The comparison of the startup arguments.
    method UpdateStartupArgs(newArgs: seq<string>) returns (updated: bool)
      modifies this`settings
      ensures settings == old(settings).(args := newArgs) && updated == (old(settings).args != newArgs)
    {
      if |newArgs| == |settings.args| {
        var changed := false;
        var i := 0;
        while i < |newArgs|
          invariant 0 <= i <= |newArgs|
          invariant !changed
          invariant forall j :: 0 <= j < i ==> newArgs[j] == settings.args[j]
        {
          if newArgs[i] != settings.args[i] {
            changed := true;
            break;
          }
          i := i + 1;
        }
        if !changed {
          assert newArgs == settings.args;
          return false;
        }
      }
      settings := settings.(args := newArgs);
      updated := true;
    }

    method UpdateContainer(d: Desired) returns (reasons: seq<string>)
      modifies this`settings
      ensures settings == old(settings).(container := WantedContainer(d, old(settings).container))
      ensures reasons != [] <==> settings != old(settings)
    {
      reasons := [];
      var c := settings.container;
      if d.memory.Some? && c.memory != d.memory.value {
        c := c.(memory := d.memory.value);
        reasons := reasons + ["memory changed"];
      }
      if d.cpu.Some? && c.cpu != d.cpu.value {
        c := c.(cpu := d.cpu.value);
        reasons := reasons + ["cpu changed"];
      }
      if d.image.Some? && c.image != d.image.value {
        c := c.(image := d.image.value);
        reasons := reasons + ["image changed"];
      }
      settings := settings.(container := c);
    }

    method UpdatePlacement(d: Placement) returns (reasons: seq<string>)
      modifies this`settings
      ensures settings == old(settings).(placement := d) && (reasons != [] <==> old(settings).placement != d)
    {
      reasons := [];
      var p := settings.placement;
      if p.grace != d.grace {
        p := p.(grace := d.grace);
        reasons := reasons + ["terminationGracePeriod changed"];
      }
      if p.affinity != d.affinity {
        p := p.(affinity := d.affinity);
        reasons := reasons + ["affinity changed"];
      }
      if p.tolerations != d.tolerations {
        p := p.(tolerations := d.tolerations);
        reasons := reasons + ["tolerations changed"];
      }
      if p.topology != d.topology {
        p := p.(topology := d.topology);
        reasons := reasons + ["topologySpreadConstraints changed"];
      }
      if p.priority != d.priority {
        p := p.(priority := d.priority);
        reasons := reasons + ["priorityClassName changed"];
      }
      if p.account != d.account {
        p := p.(account := d.account);
        reasons := reasons + ["serviceAccountName changed"];
      }
      settings := settings.(placement := p);
    }

    method UpdateSettings(d: Desired) returns (reasons: seq<string>)
      modifies this`settings
      ensures settings == Wanted(d, old(settings))
      ensures reasons != [] <==> settings != old(settings)
    {
      var container := UpdateContainer(d);
      var placement := UpdatePlacement(d.placement);
      var args := UpdateStartupArgs(d.args);
      reasons := container + placement + (if args then ["startup args changed"] else []);
    }

    method UpdateChecksums(d: Desired) returns (reasons: seq<string>)
      modifies this`checksums, this`env
      ensures checksums == d.checksums && (reasons != [] <==> old(checksums) != d.checksums)
      ensures env == if old(checksums).podEnvs != d.checksums.podEnvs then d.pod.env else old(env)
    {
      reasons := [];
      if checksums.overlay != d.checksums.overlay {
        checksums := checksums.(overlay := d.checksums.overlay);
        reasons := reasons + ["overlay config changed"];
      }
      if checksums.credentials != d.checksums.credentials {
        checksums := checksums.(credentials := d.checksums.credentials);
        reasons := reasons + ["credential store changed"];
      }
      if checksums.podEnvs != d.checksums.podEnvs {
        checksums := checksums.(podEnvs := d.checksums.podEnvs);
        env := d.pod.env;
        reasons := reasons + ["pod envs changed"];
      }
    }

    method UpdateVolumes(d: DesiredPod) returns (updated: bool, panicked: bool)
      modifies this`volumes, this`mounts, this`inits
      ensures panicked <==> PodTemplate.UpdateVolumes(d, old(PodView())).Panicked?
      ensures !panicked ==> Patched(PodView(), updated) == PodTemplate.UpdateVolumes(d, old(PodView()))
    {
      var overlay, artifacts, dependencies;
      updated := false;
      overlay, panicked := ApplyOverlayConfigVolume(d.configMap);
      if panicked { return; }
      artifacts, panicked := ApplyExternalArtifactsDownload(d.artifacts);
      if panicked { return; }
      dependencies, panicked := ApplyExternalDependenciesVolume(d.claim);
      updated := overlay || artifacts || dependencies;
    }

    method UpdateSecrets(d: DesiredPod) returns (updated: bool)
      modifies this`volumes, this`mounts, this`env
      ensures (PodView(), updated) == PodTemplate.UpdateSecrets(d, old(PodView()))
    {
      var identity := ReplaceIdentitySecret(d.identitySecret);
      var authentication := UpdateAuthentication(d.identitiesHash, d.identitySecret);
      var secrets := AddSecretVolumes(d.secretVolumes);
      var hashes := UpdateHashes(d.hashes);
      updated := identity || authentication || secrets || hashes;
    }

    // One application: the template is stored when a reason was found.
    method StatefulSetRollingUpgrade(d: Desired) returns (rolls: bool, stored: bool, panicked: bool)
      modifies this
      ensures panicked <==> Apply(d, old(View())).Crash?
      ensures !panicked ==> Pass(View(), rolls, stored) == Apply(d, old(View()))
    {
      ghost var t := View();
      var updateReasons: seq<string> := [];
      rolls, stored := false, false;
      if labels != d.labels {
        updateReasons := updateReasons + ["labels changed"];
      }
      var probed := UpdateProbes(d.probes);
      if probed {
        updateReasons := updateReasons + ["probes changed"];
      }
      var reasons := UpdateSettings(d);
      updateReasons := updateReasons + reasons;
      reasons := UpdateChecksums(d);
      updateReasons := updateReasons + reasons;
      ghost var p := PodView();
      assert p == t.pod.(env := env);
      var mounted;
      mounted, panicked := UpdateVolumes(d.pod);
      if panicked { return; }
      var secured := UpdateSecrets(d.pod);
      if mounted || secured {
        updateReasons := updateReasons + ["volumes changed"];
      }
      rolls := |updateReasons| > 0;
      stored := rolls;
      if replicas != d.replicas {
        replicas := d.replicas;
        stored := true;
      }
      if rolls {
        labels := d.labels;
      }
    }
  }
}
