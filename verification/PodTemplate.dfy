/**
 The pod template of a running StatefulSet, and what the rolling update does to it: every part is compared with what the
 custom resource asks for and patched where it differs.
 */
module PodTemplate {
  import opened Operands
  import opened NamedLists

  // The names the operator gives to volumes, init containers and environment variables; Other stands for any other.
  datatype Key =
    | UserConf | CustomLibraries | ExternalArtifacts | Download
    | Identities | Keystore | Truststore | Site(n: nat)
    | IdentitiesHash | KeystoreHash | TruststoreHash
    | Other(name: string)

  datatype Source = ConfigMap(name: string) | Secret(name: string) | Claim(name: string) | EmptyDir

  datatype MountPoint = MountPoint(path: string, readOnly: bool)

  datatype InitContainer = InitContainer(libs: string, resources: string)

  type Volume = Named<Key, Source>
  type Mount = Named<Key, MountPoint>
  type Init = Named<Key, InitContainer>
  type EnvVar = Named<Key, string>

  // What the helpers of the rolling update change.
  datatype Pod = Pod(volumes: seq<Volume>, mounts: seq<Mount>, inits: seq<Init>, env: seq<EnvVar>)

  const OVERLAY_PATH := "/opt/infinispan/server/conf/user"
  const LIBRARIES_PATH := "/opt/infinispan/server/lib/custom-libraries"
  const ARTIFACTS_PATH := "/opt/infinispan/server/lib/external-artifacts/lib"
  const IDENTITIES_PATH := "/etc/security/identities"

  // A volume that holds a secret, as the encryption and cross-site settings ask for it.
  datatype SecretVolume = SecretVolume(key: Key, secret: string, path: string)

  predicate IsSecretKey(k: Key) {
    k.Identities? || k.Keystore? || k.Truststore? || k.Site?
  }

  // ---- the helpers ----

  function AddVolume(p: Pod, key: Key, source: Source, mount: MountPoint): Pod {
    p.(volumes := p.volumes + [Named(key, source)], mounts := p.mounts + [Named(key, mount)])
  }

  // Removing a volume whose mount is missing slices a list at -1, which panics.
  datatype Patch = Patched(pod: Pod, changed: bool) | Panicked

  function RemoveVolume(p: Pod, key: Key): Patch {
    if Has(p.volumes, key) && Has(p.mounts, key)
    then Patched(p.(volumes := Remove(p.volumes, key), mounts := Remove(p.mounts, key)), true)
    else Panicked
  }

  function ApplyOverlay(configMap: Option<string>, p: Pod): Patch {
    match configMap
    case Some(name) =>
      if !Has(p.volumes, UserConf) then
        Patched(AddVolume(p, UserConf, ConfigMap(name), MountPoint(OVERLAY_PATH, false)), true)
      else if Lookup(p.volumes, UserConf) != Some(ConfigMap(name)) then
        Patched(p.(volumes := Put(p.volumes, UserConf, ConfigMap(name))), true)
      else Patched(p, false)
    case None => if Has(p.volumes, UserConf) then RemoveVolume(p, UserConf) else Patched(p, false)
  }

  // The name of an existing claim is not compared.
  function ApplyDependencies(claim: Option<string>, p: Pod): Patch {
    if claim.Some? && !Has(p.volumes, CustomLibraries)
    then Patched(AddVolume(p, CustomLibraries, Claim(claim.value), MountPoint(LIBRARIES_PATH, true)), true)
    else if claim.None? && Has(p.volumes, CustomLibraries) then RemoveVolume(p, CustomLibraries)
    else Patched(p, false)
  }

  // The init container decides; its volume and mount go with it.
  function ApplyArtifacts(artifacts: Option<InitContainer>, p: Pod): Patch {
    match artifacts
    case Some(a) =>
      if Has(p.inits, Download) then
        if Lookup(p.inits, Download) == artifacts then Patched(p, false)
        else Patched(p.(inits := Put(p.inits, Download, a)), true)
      else
        var q := AddVolume(p, ExternalArtifacts, EmptyDir, MountPoint(ARTIFACTS_PATH, true));
        Patched(q.(inits := p.inits + [Named(Download, a)]), true)
    case None =>
      if Has(p.inits, Download) then RemoveVolume(p.(inits := Remove(p.inits, Download)), ExternalArtifacts)
      else Patched(p, false)
  }

  function SetEnv(env: seq<EnvVar>, key: Key, value: string): (seq<EnvVar>, bool) {
    if !Has(env, key) then (env + [Named(key, value)], true)
    else if Lookup(env, key) != Some(value) then (Put(env, key, value), true)
    else (env, false)
  }

  // The secret of the identities volume, if there is one.
  function ApplyIdentitySecret(secret: string, p: Pod): (Pod, bool) {
    if Has(p.volumes, Identities) && Lookup(p.volumes, Identities) != Some(Secret(secret))
    then (p.(volumes := Put(p.volumes, Identities, Secret(secret))), true)
    else (p, false)
  }

  // With authentication the identities volume is added, together with the hash of its content, or the hash is updated.
  function ApplyAuthentication(hash: Option<string>, secret: string, p: Pod): (Pod, bool) {
    if hash.None? then (p, false)
    else if !Has(p.volumes, Identities) then
      var q := AddVolume(p, Identities, Secret(secret), MountPoint(IDENTITIES_PATH, false));
      (q.(env := p.env + [Named(IdentitiesHash, hash.value)]), true)
    else var (env, changed) := SetEnv(p.env, IdentitiesHash, hash.value); (p.(env := env), changed)
  }

  function AddSecretVolume(v: SecretVolume, p: Pod): (Pod, bool) {
    var mount := MountPoint(v.path, false);
    var missing := !Has(p.volumes, v.key);
    var volumes := if missing then p.volumes + [Named(v.key, Secret(v.secret))] else p.volumes;
    if !Has(p.mounts, v.key) then (p.(volumes := volumes, mounts := p.mounts + [Named(v.key, mount)]), true)
    else
      var remounted := Lookup(p.mounts, v.key) != Some(mount);
      (p.(volumes := volumes, mounts := Put(p.mounts, v.key, mount)), missing || remounted)
  }

  function AddSecretVolumes(vs: seq<SecretVolume>, p: Pod): (Pod, bool) {
    if vs == [] then (p, false)
    else
      var (p1, before) := AddSecretVolumes(vs[..|vs| - 1], p);
      var (p2, last) := AddSecretVolume(vs[|vs| - 1], p1);
      (p2, before || last)
  }

  function SetHashes(hashes: seq<EnvVar>, env: seq<EnvVar>): (seq<EnvVar>, bool) {
    if hashes == [] then (env, false)
    else
      var last := hashes[|hashes| - 1];
      var (env1, before) := SetHashes(hashes[..|hashes| - 1], env);
      var (env2, changed) := SetEnv(env1, last.name, last.value);
      (env2, before || changed)
  }

  // ---- the whole template ----

  datatype Probes = Probes(liveness: string, readiness: string, startup: string)

  // Parts that are replaced as a whole where they differ.
  datatype Container = Container(memory: (string, string), cpu: (string, string), image: string)

  datatype Placement = Placement(grace: nat, affinity: string, tolerations: string, topology: string, priority: string,
                                 account: string)

  datatype Settings = Settings(container: Container, placement: Placement, args: seq<string>)

  // The checksums kept as annotations of the StatefulSet.
  datatype Checksums = Checksums(overlay: string, credentials: string, podEnvs: string)

  datatype Template = Template(labels: map<string, string>, settings: Settings, probes: Probes, checksums: Checksums,
                               pod: Pod, replicas: nat)

  // What the custom resource, its configuration and the requested release ask for. Memory, CPU and image are left alone
  // where nothing is asked for.
  datatype Desired = Desired(labels: map<string, string>, memory: Option<(string, string)>,
                             cpu: Option<(string, string)>,
                             image: Option<string>, placement: Placement, args: seq<string>, probes: Probes,
                             checksums: Checksums,
                             pod: DesiredPod, replicas: nat)

  datatype DesiredPod = DesiredPod(env: seq<EnvVar>, configMap: Option<string>, artifacts: Option<InitContainer>,
                                   claim: Option<string>, identitySecret: string, identitiesHash: Option<string>,
                                   secretVolumes: seq<SecretVolume>, hashes: seq<EnvVar>)

  function WantedContainer(d: Desired, c: Container): Container {
    Container(if d.memory.Some? then d.memory.value else c.memory,
              if d.cpu.Some? then d.cpu.value else c.cpu,
              if d.image.Some? then d.image.value else c.image)
  }

  function Wanted(d: Desired, s: Settings): Settings {
    Settings(WantedContainer(d, s.container), d.placement, d.args)
  }

  // A chain of alternatives: only the first probe that differs is patched.
  function PatchProbes(d: Probes, p: Probes): (Probes, bool) {
    if p.liveness != d.liveness then (p.(liveness := d.liveness), true)
    else if p.readiness != d.readiness then (p.(readiness := d.readiness), true)
    else if p.startup != d.startup then (p.(startup := d.startup), true)
    else (p, false)
  }

  // ---- one pass ----

  function UpdateSecrets(d: DesiredPod, p: Pod): (Pod, bool) {
    var (p1, c1) := ApplyIdentitySecret(d.identitySecret, p);
    var (p2, c2) := ApplyAuthentication(d.identitiesHash, d.identitySecret, p1);
    var (p3, c3) := AddSecretVolumes(d.secretVolumes, p2);
    var (env, c4) := SetHashes(d.hashes, p3.env);
    (p3.(env := env), c1 || c2 || c3 || c4)
  }

  function UpdateVolumes(d: DesiredPod, p: Pod): Patch {
    match ApplyOverlay(d.configMap, p)
    case Panicked => Panicked
    case Patched(p1, c1) =>
      match ApplyArtifacts(d.artifacts, p1)
      case Panicked => Panicked
      case Patched(p2, c2) =>
        match ApplyDependencies(d.claim, p2)
        case Panicked => Panicked
        case Patched(p3, c3) => Patched(p3, c1 || c2 || c3)
  }

  function UpdatePod(d: DesiredPod, p: Pod): Patch {
    match UpdateVolumes(d, p)
    case Panicked => Panicked
    case Patched(p1, c1) => var (p2, c2) := UpdateSecrets(d, p1); Patched(p2, c1 || c2)
  }

  // One application of the rolling update: the new template, and whether it makes the pods roll and is stored at all.
  datatype Pass = Pass(template: Template, rolls: bool, stored: bool) | Crash

  function Apply(d: Desired, t: Template): Pass {
    var (probes, probed) := PatchProbes(d.probes, t.probes);
    var env := if t.checksums.podEnvs != d.checksums.podEnvs then d.pod.env else t.pod.env;
    match UpdatePod(d.pod, t.pod.(env := env))
    case Panicked => Crash
    case Patched(pod, changed) =>
      var settings := Wanted(d, t.settings);
      var rolls := t.labels != d.labels || t.settings != settings || probed || t.checksums != d.checksums || changed;
      Pass(Template(if rolls then d.labels else t.labels, settings, probes, d.checksums, pod, d.replicas),
           rolls, rolls || t.replicas != d.replicas)
  }
}
