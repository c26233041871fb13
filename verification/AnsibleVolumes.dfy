/** The volumes and mounts of an AnsibleTest pod. Modes are Go's octal constants in decimal. */
module AnsibleVolumes {
  import opened Types
  import IndexSafety
  import Protocol

  const WORKDIR := "test-operator-ephemeral-workdir"
  const TMP := "test-operator-ephemeral-temporary"
  const LOGS := "test-operator-logs"
  const CA_CERTS := "ca-certs"
  const COMPUTE := "compute-ssh-secret"
  const WORKLOAD := "workload-ssh-secret"

  datatype Source = ConfigMapSource(name: string, mode: int) | SecretSource(secret: string, mode: int)
                  | ClaimSource(claim: string) | EmptyDir | ExtraSource(description: string)

  datatype Volume = Volume(name: string, source: Source)

  datatype Mount = Mount(name: string, path: string, subPath: string, readOnly: bool)

  datatype ConfigMount = ConfigMount(name: string, mountPath: string, subPath: string)

  /** One entry of ExtraMounts after Propagate has filtered it. */
  datatype ExtraMount = ExtraMount(volumes: seq<Volume>, mounts: seq<Mount>)

  /** The merged spec. A workflow step's ExtraConfigmapsMounts is a pointer. */
  datatype AnsibleSpec = AnsibleSpec(
    configMap: string, configSecret: string, computeKey: string, workloadKey: string,
    extraMounts: seq<ExtraMount>, configMounts: seq<ConfigMount>, workflow: seq<Option<seq<ConfigMount>>>)

  // ---- what the lists contain ------------------------------------------------------------------

  function ConfigVolume(c: ConfigMount): Volume { Volume(c.name, ConfigMapSource(c.name, 484)) }

  function ConfigVolumes(cs: seq<ConfigMount>): seq<Volume> {
    seq(|cs|, i requires 0 <= i < |cs| => ConfigVolume(cs[i]))
  }

  function ConfigMountOf(c: ConfigMount): Mount { Mount(c.name, c.mountPath, c.subPath, true) }

  function ConfigMounts(cs: seq<ConfigMount>): seq<Mount> {
    seq(|cs|, i requires 0 <= i < |cs| => ConfigMountOf(cs[i]))
  }

  function ExtraVolumes(extra: seq<ExtraMount>): seq<Volume> {
    if extra == [] then [] else ExtraVolumes(extra[..|extra| - 1]) + extra[|extra| - 1].volumes
  }

  function ExtraMountsOf(extra: seq<ExtraMount>): seq<Mount> {
    if extra == [] then [] else ExtraMountsOf(extra[..|extra| - 1]) + extra[|extra| - 1].mounts
  }

  function FixedVolumes(spec: AnsibleSpec, logsPVC: string, mountCerts: bool): seq<Volume> {
    [Volume(spec.configMap, ConfigMapSource(spec.configMap, 272)),
     Volume(spec.configSecret, SecretSource(spec.configSecret, 292)),
     Volume(LOGS, ClaimSource(logsPVC)), Volume(WORKDIR, EmptyDir), Volume(TMP, EmptyDir)]
    + (if mountCerts then [Volume(CA_CERTS, SecretSource("combined-ca-bundle", 272))] else [])
    + [Volume(COMPUTE, SecretSource(spec.computeKey, 384))]
    + (if spec.workloadKey != "" then [Volume(WORKLOAD, SecretSource(spec.workloadKey, 384))] else [])
  }

  function FixedMounts(spec: AnsibleSpec, mountCerts: bool): seq<Mount> {
    [Mount(WORKDIR, "/var/lib/ansible", "", false), Mount(TMP, "/tmp", "", false),
     Mount(LOGS, "/var/lib/AnsibleTests/external_files", "", false),
     Mount(spec.configMap, "/etc/openstack/clouds.yaml", "clouds.yaml", true),
     Mount(spec.configMap, "/var/lib/ansible/.config/openstack/clouds.yaml", "clouds.yaml", true),
     Mount(spec.configSecret, "/var/lib/ansible/.config/openstack/secure.yaml", "secure.yaml", false)]
    + (if mountCerts then
         [Mount(CA_CERTS, "/etc/pki/ca-trust/extracted/pem/tls-ca-bundle.pem", "tls-ca-bundle.pem", true),
          Mount(CA_CERTS, "/etc/pki/tls/certs/ca-bundle.trust.crt", "tls-ca-bundle.pem", true)]
       else [])
    + [Mount(COMPUTE, "/var/lib/ansible/.ssh/compute_id", "ssh-privatekey", true)]
    + (if spec.workloadKey != "" then [Mount(WORKLOAD, "/var/lib/ansible/test_keypair.key", "ssh-privatekey", true)]
       else [])
  }

  /** What the step itself adds. */
  function StepMounts(spec: AnsibleSpec, step: int): seq<ConfigMount>
    requires !OutOfRange(|spec.workflow|, step)
  {
    if |spec.workflow| > 0 && spec.workflow[step].Some? then spec.workflow[step].value else []
  }

  function Volumes(spec: AnsibleSpec, logsPVC: string, mountCerts: bool, step: int): seq<Volume>
    requires !OutOfRange(|spec.workflow|, step)
  {
    FixedVolumes(spec, logsPVC, mountCerts) + ExtraVolumes(spec.extraMounts) + ConfigVolumes(spec.configMounts)
    + ConfigVolumes(StepMounts(spec, step))
  }

  function Mounts(spec: AnsibleSpec, mountCerts: bool, step: int): seq<Mount>
    requires !OutOfRange(|spec.workflow|, step)
  {
    FixedMounts(spec, mountCerts) + ExtraMountsOf(spec.extraMounts) + ConfigMounts(spec.configMounts)
    + ConfigMounts(StepMounts(spec, step))
  }

  // ---- where each volume and mount stands ------------------------------------------------------

  /** What the step itself brings. */
  predicate IsOwn(spec: AnsibleSpec, step: int, own: seq<ConfigMount>) {
    if 0 <= step < |spec.workflow| && spec.workflow[step].Some? then own == spec.workflow[step].value else own == []
  }

  /** How many mounts come from the user's extra mounts, and how many volumes. */
  function MountCount(extra: seq<ExtraMount>): nat {
    if extra == [] then 0 else MountCount(extra[..|extra| - 1]) + |extra[|extra| - 1].mounts|
  }

  function VolumeCount(extra: seq<ExtraMount>): nat {
    if extra == [] then 0 else VolumeCount(extra[..|extra| - 1]) + |extra[|extra| - 1].volumes|
  }

  /** From `at` on, each config map is mounted where the user wants it, read-only. */
  predicate MountsConfigMaps(ms: seq<Mount>, at: nat, cs: seq<ConfigMount>) {
    at + |cs| <= |ms|
    && forall i | 0 <= i < |cs| ::
         && ms[at + i].name == cs[i].name && ms[at + i].path == cs[i].mountPath
         && ms[at + i].subPath == cs[i].subPath && ms[at + i].readOnly
  }

  /** From `at` on, each config map has a volume that is named after it and reads from it, mode 0744. */
  predicate HoldsConfigMaps(vs: seq<Volume>, at: nat, cs: seq<ConfigMount>) {
    at + |cs| <= |vs| && forall i | 0 <= i < |cs| :: vs[at + i] == Volume(cs[i].name, ConfigMapSource(cs[i].name, 484))
  }

  predicate StandsAt<T(==)>(list: seq<T>, k: nat, item: T) { k < |list| && list[k] == item }

  ghost predicate MountsExtra(ms: seq<Mount>, at: nat, extra: seq<ExtraMount>) {
    at + MountCount(extra) <= |ms|
    && forall i: nat, j: nat | i < |extra| && j < |extra[i].mounts| ::
         StandsAt(ms, at + MountCount(extra[..i]) + j, extra[i].mounts[j])
  }

  ghost predicate HoldsExtra(vs: seq<Volume>, at: nat, extra: seq<ExtraMount>) {
    at + VolumeCount(extra) <= |vs|
    && forall i: nat, j: nat | i < |extra| && j < |extra[i].volumes| ::
         StandsAt(vs, at + VolumeCount(extra[..i]) + j, extra[i].volumes[j])
  }

  /** Where the operator's own mounts end: seven, two for certificates and one for a workload key. */
  function MountsHead(spec: AnsibleSpec, mountCerts: bool): nat {
    7 + (if mountCerts then 2 else 0) + (if spec.workloadKey != "" then 1 else 0)
  }

  function VolumesHead(spec: AnsibleSpec, mountCerts: bool): nat {
    6 + (if mountCerts then 1 else 0) + (if spec.workloadKey != "" then 1 else 0)
  }

  /** The operator's own mounts. */
  predicate MountsOwn(spec: AnsibleSpec, mountCerts: bool, ms: seq<Mount>)
    requires MountsHead(spec, mountCerts) <= |ms|
  {
    && ms[0] == Mount("test-operator-ephemeral-workdir", "/var/lib/ansible", "", false)
    && ms[1] == Mount("test-operator-ephemeral-temporary", "/tmp", "", false)
    && ms[2] == Mount("test-operator-logs", "/var/lib/AnsibleTests/external_files", "", false)
    && ms[3] == Mount(spec.configMap, "/etc/openstack/clouds.yaml", "clouds.yaml", true)
    && ms[4] == Mount(spec.configMap, "/var/lib/ansible/.config/openstack/clouds.yaml", "clouds.yaml", true)
    && ms[5] == Mount(spec.configSecret, "/var/lib/ansible/.config/openstack/secure.yaml", "secure.yaml", false)
    && (mountCerts ==>
          && ms[6] == Mount("ca-certs", "/etc/pki/ca-trust/extracted/pem/tls-ca-bundle.pem", "tls-ca-bundle.pem", true)
          && ms[7] == Mount("ca-certs", "/etc/pki/tls/certs/ca-bundle.trust.crt", "tls-ca-bundle.pem", true))
    && ms[if mountCerts then 8 else 6]
       == Mount("compute-ssh-secret", "/var/lib/ansible/.ssh/compute_id", "ssh-privatekey", true)
    && (spec.workloadKey != "" ==>
          ms[if mountCerts then 9 else 7]
          == Mount("workload-ssh-secret", "/var/lib/ansible/test_keypair.key", "ssh-privatekey", true))
  }

  /** The operator's own volumes: the OpenStack configuration with modes 0420 and 0444, the claim for the logs,
      two empty directories, the certificates with mode 0420 and the keys with mode 0600. */
  predicate HoldsOwn(spec: AnsibleSpec, logsPVC: string, mountCerts: bool, vs: seq<Volume>)
    requires VolumesHead(spec, mountCerts) <= |vs|
  {
    && vs[0] == Volume(spec.configMap, ConfigMapSource(spec.configMap, 272))
    && vs[1] == Volume(spec.configSecret, SecretSource(spec.configSecret, 292))
    && vs[2] == Volume("test-operator-logs", ClaimSource(logsPVC))
    && vs[3] == Volume("test-operator-ephemeral-workdir", EmptyDir)
    && vs[4] == Volume("test-operator-ephemeral-temporary", EmptyDir)
    && (mountCerts ==> vs[5] == Volume("ca-certs", SecretSource("combined-ca-bundle", 272)))
    && vs[if mountCerts then 6 else 5] == Volume("compute-ssh-secret", SecretSource(spec.computeKey, 384))
    && (spec.workloadKey != "" ==>
          vs[if mountCerts then 7 else 6] == Volume("workload-ssh-secret", SecretSource(spec.workloadKey, 384)))
  }

  /** The mounts of a pod, position by position. */
  ghost predicate MountsAre(spec: AnsibleSpec, mountCerts: bool, own: seq<ConfigMount>, ms: seq<Mount>) {
    && |ms| == MountsHead(spec, mountCerts) + MountCount(spec.extraMounts) + |spec.configMounts| + |own|
    && MountsOwn(spec, mountCerts, ms)
    && MountsExtra(ms, MountsHead(spec, mountCerts), spec.extraMounts)
    && MountsConfigMaps(ms, MountsHead(spec, mountCerts) + MountCount(spec.extraMounts), spec.configMounts)
    && MountsConfigMaps(ms, |ms| - |own|, own)
  }

  /** The volumes of a pod, position by position. */
  ghost predicate VolumesAre(spec: AnsibleSpec, logsPVC: string, mountCerts: bool, own: seq<ConfigMount>,
                             vs: seq<Volume>)
  {
    && |vs| == VolumesHead(spec, mountCerts) + VolumeCount(spec.extraMounts) + |spec.configMounts| + |own|
    && HoldsOwn(spec, logsPVC, mountCerts, vs)
    && HoldsExtra(vs, VolumesHead(spec, mountCerts), spec.extraMounts)
    && HoldsConfigMaps(vs, VolumesHead(spec, mountCerts) + VolumeCount(spec.extraMounts), spec.configMounts)
    && HoldsConfigMaps(vs, |vs| - |own|, own)
  }

  lemma {:induction false} ExtraMountAt(extra: seq<ExtraMount>, i: nat, j: nat)
    requires i < |extra| && j < |extra[i].mounts|
    ensures StandsAt(ExtraMountsOf(extra), MountCount(extra[..i]) + j, extra[i].mounts[j])
  {
    var front := extra[..|extra| - 1];
    ExtraCounts(front);
    if i < |front| {
      ExtraMountAt(front, i, j);
      assert front[..i] == extra[..i];
    }
  }

  lemma {:induction false} ExtraVolumeAt(extra: seq<ExtraMount>, i: nat, j: nat)
    requires i < |extra| && j < |extra[i].volumes|
    ensures StandsAt(ExtraVolumes(extra), VolumeCount(extra[..i]) + j, extra[i].volumes[j])
  {
    var front := extra[..|extra| - 1];
    ExtraCounts(front);
    if i < |front| {
      ExtraVolumeAt(front, i, j);
      assert front[..i] == extra[..i];
    }
  }

  lemma {:induction false} ExtraCounts(extra: seq<ExtraMount>)
    ensures |ExtraMountsOf(extra)| == MountCount(extra) && |ExtraVolumes(extra)| == VolumeCount(extra)
  {
    if extra != [] {
      ExtraCounts(extra[..|extra| - 1]);
    }
  }

  lemma MountsStand(spec: AnsibleSpec, mountCerts: bool, step: int, own: seq<ConfigMount>)
    requires !OutOfRange(|spec.workflow|, step) && IsOwn(spec, step, own)
    ensures MountsAre(spec, mountCerts, own, Mounts(spec, mountCerts, step))
  {
    var head, extra := FixedMounts(spec, mountCerts), ExtraMountsOf(spec.extraMounts);
    ExtraCounts(spec.extraMounts);
    forall i: nat, j: nat | i < |spec.extraMounts| && j < |spec.extraMounts[i].mounts|
      ensures StandsAt(extra, MountCount(spec.extraMounts[..i]) + j, spec.extraMounts[i].mounts[j])
    {
      ExtraMountAt(spec.extraMounts, i, j);
    }
    assert |head| == MountsHead(spec, mountCerts) && MountsOwn(spec, mountCerts, head);
    assert StepMounts(spec, step) == own;
    MountsInFour(spec, mountCerts, own, head, extra, ConfigMounts(spec.configMounts), ConfigMounts(own));
  }

  lemma FourParts<T>(a: seq<T>, b: seq<T>, c: seq<T>, d: seq<T>)
    ensures var s := a + b + c + d;
            && |s| == |a| + |b| + |c| + |d| && s[..|a|] == a && s[|a|..|a| + |b|] == b
            && s[|a| + |b|..|a| + |b| + |c|] == c && s[|a| + |b| + |c|..] == d
  {
  }

  lemma OwnMountsStand(spec: AnsibleSpec, mountCerts: bool, ms: seq<Mount>, head: seq<Mount>)
    requires |head| == MountsHead(spec, mountCerts) && MountsOwn(spec, mountCerts, head)
    requires |head| <= |ms| && ms[..|head|] == head
    ensures MountsOwn(spec, mountCerts, ms)
  {
    assert forall i | 0 <= i < |head| :: ms[i] == head[i];
  }

  lemma ExtraMountsStand(ms: seq<Mount>, at: nat, part: seq<Mount>, extra: seq<ExtraMount>)
    requires at + |part| <= |ms| && ms[at..at + |part|] == part
    requires |part| == MountCount(extra) && MountsExtra(part, 0, extra)
    ensures MountsExtra(ms, at, extra)
  {
    forall i: nat, j: nat | i < |extra| && j < |extra[i].mounts|
      ensures StandsAt(ms, at + MountCount(extra[..i]) + j, extra[i].mounts[j])
    {
      var k := MountCount(extra[..i]) + j;
      assert StandsAt(part, 0 + k, extra[i].mounts[j]);
      assert ms[at..at + |part|][k] == ms[at + k];
    }
  }

  lemma ConfigMountsStand(ms: seq<Mount>, at: nat, part: seq<Mount>, cs: seq<ConfigMount>)
    requires at + |part| <= |ms| && ms[at..at + |part|] == part && |part| == |cs| && MountsConfigMaps(part, 0, cs)
    ensures MountsConfigMaps(ms, at, cs)
  {
    forall i | 0 <= i < |cs| ensures ms[at + i] == part[i] {
      assert ms[at..at + |part|][i] == ms[at + i];
    }
  }

  lemma MountsInFour(spec: AnsibleSpec, mountCerts: bool, own: seq<ConfigMount>, head: seq<Mount>, extra: seq<Mount>,
                     configs: seq<Mount>, owns: seq<Mount>)
    requires |head| == MountsHead(spec, mountCerts) && MountsOwn(spec, mountCerts, head)
    requires |extra| == MountCount(spec.extraMounts) && MountsExtra(extra, 0, spec.extraMounts)
    requires |configs| == |spec.configMounts| && MountsConfigMaps(configs, 0, spec.configMounts)
    requires |owns| == |own| && MountsConfigMaps(owns, 0, own)
    ensures MountsAre(spec, mountCerts, own, head + extra + configs + owns)
  {
    var ms := head + extra + configs + owns;
    FourParts(head, extra, configs, owns);
    OwnMountsStand(spec, mountCerts, ms, head);
    ExtraMountsStand(ms, |head|, extra, spec.extraMounts);
    ConfigMountsStand(ms, |head| + |extra|, configs, spec.configMounts);
    ConfigMountsStand(ms, |ms| - |own|, owns, own);
  }

  lemma VolumesStand(spec: AnsibleSpec, logsPVC: string, mountCerts: bool, step: int, own: seq<ConfigMount>)
    requires !OutOfRange(|spec.workflow|, step) && IsOwn(spec, step, own)
    ensures VolumesAre(spec, logsPVC, mountCerts, own, Volumes(spec, logsPVC, mountCerts, step))
  {
    var head, extra := FixedVolumes(spec, logsPVC, mountCerts), ExtraVolumes(spec.extraMounts);
    ExtraCounts(spec.extraMounts);
    forall i: nat, j: nat | i < |spec.extraMounts| && j < |spec.extraMounts[i].volumes|
      ensures StandsAt(extra, VolumeCount(spec.extraMounts[..i]) + j, spec.extraMounts[i].volumes[j])
    {
      ExtraVolumeAt(spec.extraMounts, i, j);
    }
    assert |head| == VolumesHead(spec, mountCerts) && HoldsOwn(spec, logsPVC, mountCerts, head);
    assert StepMounts(spec, step) == own;
    VolumesInFour(spec, logsPVC, mountCerts, own, head, extra, ConfigVolumes(spec.configMounts), ConfigVolumes(own));
  }

  lemma OwnVolumesStand(spec: AnsibleSpec, logsPVC: string, mountCerts: bool, vs: seq<Volume>, head: seq<Volume>)
    requires |head| == VolumesHead(spec, mountCerts) && HoldsOwn(spec, logsPVC, mountCerts, head)
    requires |head| <= |vs| && vs[..|head|] == head
    ensures HoldsOwn(spec, logsPVC, mountCerts, vs)
  {
    assert forall i | 0 <= i < |head| :: vs[i] == head[i];
  }

  lemma ExtraVolumesStand(vs: seq<Volume>, at: nat, part: seq<Volume>, extra: seq<ExtraMount>)
    requires at + |part| <= |vs| && vs[at..at + |part|] == part
    requires |part| == VolumeCount(extra) && HoldsExtra(part, 0, extra)
    ensures HoldsExtra(vs, at, extra)
  {
    forall i: nat, j: nat | i < |extra| && j < |extra[i].volumes|
      ensures StandsAt(vs, at + VolumeCount(extra[..i]) + j, extra[i].volumes[j])
    {
      var k := VolumeCount(extra[..i]) + j;
      assert StandsAt(part, 0 + k, extra[i].volumes[j]);
      assert vs[at..at + |part|][k] == vs[at + k];
    }
  }

  lemma ConfigVolumesStand(vs: seq<Volume>, at: nat, part: seq<Volume>, cs: seq<ConfigMount>)
    requires at + |part| <= |vs| && vs[at..at + |part|] == part && |part| == |cs| && HoldsConfigMaps(part, 0, cs)
    ensures HoldsConfigMaps(vs, at, cs)
  {
    forall i | 0 <= i < |cs| ensures vs[at + i] == part[i] {
      assert vs[at..at + |part|][i] == vs[at + i];
    }
  }

  lemma VolumesInFour(spec: AnsibleSpec, logsPVC: string, mountCerts: bool, own: seq<ConfigMount>, head: seq<Volume>,
                      extra: seq<Volume>, configs: seq<Volume>, owns: seq<Volume>)
    requires |head| == VolumesHead(spec, mountCerts) && HoldsOwn(spec, logsPVC, mountCerts, head)
    requires |extra| == VolumeCount(spec.extraMounts) && HoldsExtra(extra, 0, spec.extraMounts)
    requires |configs| == |spec.configMounts| && HoldsConfigMaps(configs, 0, spec.configMounts)
    requires |owns| == |own| && HoldsConfigMaps(owns, 0, own)
    ensures VolumesAre(spec, logsPVC, mountCerts, own, head + extra + configs + owns)
  {
    var vs := head + extra + configs + owns;
    FourParts(head, extra, configs, owns);
    OwnVolumesStand(spec, logsPVC, mountCerts, vs, head);
    ExtraVolumesStand(vs, |head|, extra, spec.extraMounts);
    ConfigVolumesStand(vs, |head| + |extra|, configs, spec.configMounts);
    ConfigVolumesStand(vs, |vs| - |own|, owns, own);
  }

  // ---- the loops -------------------------------------------------------------------------------

  method AppendExtraConfigmapsVolumes(volumes: seq<Volume>, cs: seq<ConfigMount>) returns (r: seq<Volume>)
    ensures r == volumes + ConfigVolumes(cs)
  {
    r := volumes;
    for i := 0 to |cs|
      invariant r == volumes + ConfigVolumes(cs[..i])
    {
      assert ConfigVolumes(cs[..i + 1]) == ConfigVolumes(cs[..i]) + [ConfigVolume(cs[i])];
      r := r + [Volume(cs[i].name, ConfigMapSource(cs[i].name, 484))];
    }
    assert cs[..|cs|] == cs;
  }

  method AppendExtraConfigmapsVolumeMounts(mounts: seq<Mount>, cs: seq<ConfigMount>) returns (r: seq<Mount>)
    ensures r == mounts + ConfigMounts(cs)
  {
    r := mounts;
    for i := 0 to |cs|
      invariant r == mounts + ConfigMounts(cs[..i])
    {
      assert ConfigMounts(cs[..i + 1]) == ConfigMounts(cs[..i]) + [ConfigMountOf(cs[i])];
      r := r + [Mount(cs[i].name, cs[i].mountPath, cs[i].subPath, true)];
    }
    assert cs[..|cs|] == cs;
  }

  method AppendExtraMountsVolumes(volumes: seq<Volume>, extra: seq<ExtraMount>) returns (r: seq<Volume>)
    ensures r == volumes + ExtraVolumes(extra)
  {
    r := volumes;
    for i := 0 to |extra|
      invariant r == volumes + ExtraVolumes(extra[..i])
    {
      for j := 0 to |extra[i].volumes|
        invariant r == volumes + ExtraVolumes(extra[..i]) + extra[i].volumes[..j]
      {
        r := r + [extra[i].volumes[j]];
      }
      assert extra[..i + 1][..i] == extra[..i];
    }
    assert extra[..|extra|] == extra;
  }

  method AppendExtraMountsVolumeMounts(mounts: seq<Mount>, extra: seq<ExtraMount>) returns (r: seq<Mount>)
    ensures r == mounts + ExtraMountsOf(extra)
  {
    r := mounts;
    for i := 0 to |extra|
      invariant r == mounts + ExtraMountsOf(extra[..i])
    {
      r := r + extra[i].mounts;
      assert extra[..i + 1][..i] == extra[..i];
    }
    assert extra[..|extra|] == extra;
  }

  /** Err is the index panic. */
  method GetVolumes(spec: AnsibleSpec, logsPVC: string, mountCerts: bool, step: int) returns (r: Result<seq<Volume>>)
    ensures r.Err? <==> OutOfRange(|spec.workflow|, step)
    ensures r.Ok? ==> r.value == Volumes(spec, logsPVC, mountCerts, step)
    ensures r.Ok? ==> forall own | IsOwn(spec, step, own) :: VolumesAre(spec, logsPVC, mountCerts, own, r.value)
  {
    if !OutOfRange(|spec.workflow|, step) {
      forall own | IsOwn(spec, step, own)
        ensures VolumesAre(spec, logsPVC, mountCerts, own, Volumes(spec, logsPVC, mountCerts, step))
      {
        VolumesStand(spec, logsPVC, mountCerts, step, own);
      }
    }
    var volumes := [
      Volume(spec.configMap, ConfigMapSource(spec.configMap, 272)),
      Volume(spec.configSecret, SecretSource(spec.configSecret, 292)),
      Volume(LOGS, ClaimSource(logsPVC)),
      Volume(WORKDIR, EmptyDir),
      Volume(TMP, EmptyDir)];
    if mountCerts {
      volumes := volumes + [Volume(CA_CERTS, SecretSource("combined-ca-bundle", 272))];
    }
    volumes := volumes + [Volume(COMPUTE, SecretSource(spec.computeKey, 384))];
    if spec.workloadKey != "" {
      volumes := volumes + [Volume(WORKLOAD, SecretSource(spec.workloadKey, 384))];
    }
    assert volumes == FixedVolumes(spec, logsPVC, mountCerts);
    volumes := AppendExtraMountsVolumes(volumes, spec.extraMounts);
    volumes := AppendExtraConfigmapsVolumes(volumes, spec.configMounts);
    if |spec.workflow| > 0 {
      if !(0 <= step < |spec.workflow|) {
        return Err;
      }
      if spec.workflow[step].Some? {
        volumes := AppendExtraConfigmapsVolumes(volumes, spec.workflow[step].value);
      }
    }
    r := Ok(volumes);
  }

  method GetVolumeMounts(spec: AnsibleSpec, mountCerts: bool, step: int) returns (r: Result<seq<Mount>>)
    ensures r.Err? <==> OutOfRange(|spec.workflow|, step)
    ensures r.Ok? ==> r.value == Mounts(spec, mountCerts, step)
    ensures r.Ok? ==> forall own | IsOwn(spec, step, own) :: MountsAre(spec, mountCerts, own, r.value)
  {
    if !OutOfRange(|spec.workflow|, step) {
      forall own | IsOwn(spec, step, own) ensures MountsAre(spec, mountCerts, own, Mounts(spec, mountCerts, step)) {
        MountsStand(spec, mountCerts, step, own);
      }
    }
    var mounts := [
      Mount(WORKDIR, "/var/lib/ansible", "", false),
      Mount(TMP, "/tmp", "", false),
      Mount(LOGS, "/var/lib/AnsibleTests/external_files", "", false),
      Mount(spec.configMap, "/etc/openstack/clouds.yaml", "clouds.yaml", true),
      Mount(spec.configMap, "/var/lib/ansible/.config/openstack/clouds.yaml", "clouds.yaml", true),
      Mount(spec.configSecret, "/var/lib/ansible/.config/openstack/secure.yaml", "secure.yaml", false)];
    if mountCerts {
      mounts := mounts + [
        Mount(CA_CERTS, "/etc/pki/ca-trust/extracted/pem/tls-ca-bundle.pem", "tls-ca-bundle.pem", true),
        Mount(CA_CERTS, "/etc/pki/tls/certs/ca-bundle.trust.crt", "tls-ca-bundle.pem", true)];
    }
    mounts := mounts + [Mount(COMPUTE, "/var/lib/ansible/.ssh/compute_id", "ssh-privatekey", true)];
    if spec.workloadKey != "" {
      mounts := mounts + [Mount(WORKLOAD, "/var/lib/ansible/test_keypair.key", "ssh-privatekey", true)];
    }
    assert mounts == FixedMounts(spec, mountCerts);
    mounts := AppendExtraMountsVolumeMounts(mounts, spec.extraMounts);
    mounts := AppendExtraConfigmapsVolumeMounts(mounts, spec.configMounts);
    if |spec.workflow| > 0 {
      if !(0 <= step < |spec.workflow|) {
        return Err;
      }
      if spec.workflow[step].Some? {
        mounts := AppendExtraConfigmapsVolumeMounts(mounts, spec.workflow[step].value);
      }
    }
    r := Ok(mounts);
  }

  // ---- the two lists fit together --------------------------------------------------------------

  ghost predicate HasVolume(volumes: seq<Volume>, name: string) {
    exists j :: 0 <= j < |volumes| && volumes[j].name == name
  }

  ghost predicate Backed(mounts: seq<Mount>, volumes: seq<Volume>) {
    forall i | 0 <= i < |mounts| :: HasVolume(volumes, mounts[i].name)
  }

  lemma BackedSum(ms: seq<Mount>, vs: seq<Volume>, ms': seq<Mount>, vs': seq<Volume>)
    requires Backed(ms, vs) && Backed(ms', vs')
    ensures Backed(ms + ms', vs + vs')
  {
    forall i | 0 <= i < |ms + ms'|
      ensures HasVolume(vs + vs', (ms + ms')[i].name)
    {
      if i < |ms| {
        assert HasVolume(vs, ms[i].name);
        var j :| 0 <= j < |vs| && vs[j].name == ms[i].name;
        assert (vs + vs')[j].name == (ms + ms')[i].name;
      } else {
        assert HasVolume(vs', ms'[i - |ms|].name);
        var j :| 0 <= j < |vs'| && vs'[j].name == ms'[i - |ms|].name;
        assert (vs + vs')[|vs| + j].name == (ms + ms')[i].name;
      }
    }
  }

  lemma FixedBacked(spec: AnsibleSpec, logsPVC: string, mountCerts: bool)
    ensures Backed(FixedMounts(spec, mountCerts), FixedVolumes(spec, logsPVC, mountCerts))
  {
    var ms, vs := FixedMounts(spec, mountCerts), FixedVolumes(spec, logsPVC, mountCerts);
    var c := if mountCerts then 1 else 0;
    assert vs[0].name == spec.configMap && vs[1].name == spec.configSecret && vs[2].name == LOGS;
    assert vs[3].name == WORKDIR && vs[4].name == TMP && vs[5 + c].name == COMPUTE;
    assert mountCerts ==> vs[5].name == CA_CERTS;
    assert spec.workloadKey != "" ==> vs[6 + c].name == WORKLOAD;
  }

  lemma ConfigBacked(cs: seq<ConfigMount>)
    ensures Backed(ConfigMounts(cs), ConfigVolumes(cs))
  {
    forall i | 0 <= i < |cs|
      ensures HasVolume(ConfigVolumes(cs), ConfigMounts(cs)[i].name)
    {
      assert ConfigVolumes(cs)[i].name == ConfigMounts(cs)[i].name;
    }
  }

  lemma {:induction false} ExtraBacked(extra: seq<ExtraMount>)
    requires forall e | e in extra :: Backed(e.mounts, e.volumes)
    ensures Backed(ExtraMountsOf(extra), ExtraVolumes(extra))
  {
    if extra != [] {
      var front, last := extra[..|extra| - 1], extra[|extra| - 1];
      ExtraBacked(front);
      BackedSum(ExtraMountsOf(front), ExtraVolumes(front), last.mounts, last.volumes);
    }
  }

  /** Every mount names a volume of the pod, as long as each of the user's extra mounts does. */
  lemma EveryMountHasItsVolume(spec: AnsibleSpec, logsPVC: string, mountCerts: bool, step: int)
    requires !OutOfRange(|spec.workflow|, step) && forall e | e in spec.extraMounts :: Backed(e.mounts, e.volumes)
    ensures Backed(Mounts(spec, mountCerts, step), Volumes(spec, logsPVC, mountCerts, step))
  {
    FixedBacked(spec, logsPVC, mountCerts);
    ExtraBacked(spec.extraMounts);
    ConfigBacked(spec.configMounts);
    ConfigBacked(StepMounts(spec, step));
    var ms, vs := FixedMounts(spec, mountCerts), FixedVolumes(spec, logsPVC, mountCerts);
    var em, ev := ExtraMountsOf(spec.extraMounts), ExtraVolumes(spec.extraMounts);
    BackedSum(ms, vs, em, ev);
    BackedSum(ms + em, vs + ev, ConfigMounts(spec.configMounts), ConfigVolumes(spec.configMounts));
    BackedSum(ms + em + ConfigMounts(spec.configMounts), vs + ev + ConfigVolumes(spec.configMounts),
              ConfigMounts(StepMounts(spec, step)), ConfigVolumes(StepMounts(spec, step)));
  }

  /** A reconcile that gets to build the pod does not panic here, unless it overruns its workflow. */
  lemma ReconcileStaysInRange(start: Protocol.State, run: seq<Protocol.Event>, cr: string, spec: AnsibleSpec)
    requires Protocol.Start(start) && Protocol.Possible(start, run) && IndexSafety.NeverOverruns(start, run)
    requires Protocol.Knows(Protocol.After(start, run), cr)
    requires var v := Protocol.Look(Protocol.After(start, run), cr);
             v.me.kind == AnsibleTest && v.stage.Locked? && |v.stage.task.spec.workflow| == |spec.workflow|
    ensures !OutOfRange(|spec.workflow|, Protocol.After(start, run).at[cr].task.step)
  {
    IndexSafety.VolumeIndexIsSafe(start, run, cr);
  }
}
