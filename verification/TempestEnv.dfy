/** The environment variables and files that configure a Tempest pod. */
module TempestEnv {
  import opened Decimal
  import opened EnvColumns
  import opened Types
  import PodNames

  const BASE_DIR := "/etc/test_operator/"

  // Variables carry their own names as constructors, grouped by how they are written.
  datatype FileVar =
    | TEMPEST_WORKER_FILE | TEMPEST_INCLUDE_LIST | TEMPEST_EXCLUDE_LIST | TEMPEST_EXPECTED_FAILURES_LIST
    | TEMPESTCONF_DEPLOYER_INPUT | TEMPESTCONF_TEST_ACCOUNTS | TEMPESTCONF_PROFILE

  datatype RunFlagVar = TEMPEST_SERIAL | TEMPEST_PARALLEL | TEMPEST_SMOKE | USE_EXTERNAL_FILES

  datatype PluginVar =
    TEMPEST_EXTERNAL_PLUGIN_GIT_URL | TEMPEST_EXTERNAL_PLUGIN_CHANGE_URL | TEMPEST_EXTERNAL_PLUGIN_REFSPEC

  datatype ImageVar =
    | TEMPEST_EXTRA_IMAGES_URL | TEMPEST_EXTRA_IMAGES_OS_CLOUD | TEMPEST_EXTRA_IMAGES_CONTAINER_FORMAT
    | TEMPEST_EXTRA_IMAGES_ID | TEMPEST_EXTRA_IMAGES_NAME | TEMPEST_EXTRA_IMAGES_DISK_FORMAT
    | TEMPEST_EXTRA_IMAGES_CREATE_TIMEOUT | TEMPEST_EXTRA_IMAGES_FLAVOR_ID | TEMPEST_EXTRA_IMAGES_FLAVOR_NAME
    | TEMPEST_EXTRA_IMAGES_FLAVOR_OS_CLOUD | TEMPEST_EXTRA_IMAGES_FLAVOR_RAM | TEMPEST_EXTRA_IMAGES_FLAVOR_DISK
    | TEMPEST_EXTRA_IMAGES_FLAVOR_VCPUS

  datatype ConfFlagVar =
    | TEMPESTCONF_CREATE | TEMPESTCONF_COLLECT_TIMING | TEMPESTCONF_INSECURE | TEMPESTCONF_NO_DEFAULT_DEPLOYER
    | TEMPESTCONF_DEBUG | TEMPESTCONF_VERBOSE | TEMPESTCONF_NON_ADMIN | TEMPESTCONF_RETRY_IMAGE
    | TEMPESTCONF_CONVERT_TO_RAW

  datatype ConfNumberVar = TEMPESTCONF_TIMEOUT | TEMPESTCONF_FLAVOR_MIN_MEM | TEMPESTCONF_FLAVOR_MIN_DISK

  datatype ConfTextVar =
    | TEMPESTCONF_OUT | TEMPESTCONF_CREATE_ACCOUNTS_FILE | TEMPESTCONF_GENERATE_PROFILE
    | TEMPESTCONF_IMAGE_DISK_FORMAT | TEMPESTCONF_IMAGE | TEMPESTCONF_NETWORK_ID | TEMPESTCONF_APPEND
    | TEMPESTCONF_REMOVE | TEMPESTCONF_OVERRIDES

  datatype ServiceVar =
    | TEMPEST_DEBUG_MODE | TEMPEST_CLEANUP | TEMPEST_RERUN_FAILED_TESTS | TEMPEST_RERUN_OVERRIDE_STATUS
    | TEMPEST_TIMING_DATA_URL

  datatype Var =
    | File(file: FileVar)
    | RunFlag(runFlag: RunFlagVar)
    | PluginColumn(plugin: PluginVar)
    | ImageColumn(image: ImageVar)
    | ConfFlag(confFlag: ConfFlagVar)
    | ConfNumber(confNumber: ConfNumberVar)
    | ConfText(confText: ConfTextVar)
    | Service(service: ServiceVar)
    | TEMPEST_CONCURRENCY | TEMPEST_WORKFLOW_STEP_DIR_NAME | TEMPEST_EXTRA_RPMS

  // ---- the spec --------------------------------------------------------------------------------

  datatype Plugin = Plugin(repository: string, changeRepository: string, changeRefspec: string)

  datatype Flavor = Flavor(id: string, name: string, osCloud: string, ram: int, disk: int, vcpus: int)

  datatype Image = Image(url: string, osCloud: string, containerFormat: string, id: string, name: string,
                         diskFormat: string, creationTimeout: int, flavor: Flavor)

  datatype TempestRun = TempestRun(
    workerFile: string, includeList: string, excludeList: string, expectedFailuresList: string,
    serial: bool, parallel: bool, smoke: bool, concurrency: int,
    externalPlugin: seq<Plugin>, extraImages: seq<Image>, extraRPMs: seq<string>)

  datatype TempestconfRun = TempestconfRun(
    deployerInput: string, testAccounts: string, profile: string,
    create: bool, collectTiming: bool, insecure: bool, noDefaultDeployer: bool, debug: bool, verbose: bool,
    nonAdmin: bool, retryImage: bool, convertToRaw: bool,
    timeout: int, flavorMinMem: int, flavorMinDisk: int,
    out: string, createAccountsFile: string, generateProfile: string, imageDiskFormat: string, image: string,
    networkID: string, append: string, remove: string, overrides: string)

  datatype TempestSpec = TempestSpec(
    run: TempestRun, conf: TempestconfRun, configOverwrite: map<string, string>, debug: bool, cleanup: bool,
    rerunFailedTests: bool, rerunOverrideStatus: bool, timingDataUrl: string, stepNames: seq<string>)

  // ---- texts -----------------------------------------------------------------------------------

  function FormatBool(b: bool): string { if b then "true" else "false" }

  function Int64OrPlaceholder(value: int, placeholder: string): string {
    if value > 0 then FormatNat(value) else placeholder
  }

  function StringOrPlaceholder(value: string, placeholder: string): string {
    if value != "" then value else placeholder
  }

  function FileName(f: FileVar): string {
    match f
    case TEMPEST_WORKER_FILE => "worker_file.yaml"
    case TEMPEST_INCLUDE_LIST => "include.txt"
    case TEMPEST_EXCLUDE_LIST => "exclude.txt"
    case TEMPEST_EXPECTED_FAILURES_LIST => "expected_failures.txt"
    case TEMPESTCONF_DEPLOYER_INPUT => "deployer_input.ini"
    case TEMPESTCONF_TEST_ACCOUNTS => "accounts.yaml"
    case TEMPESTCONF_PROFILE => "profile.yaml"
  }

  function RunFlagValue(run: TempestRun, v: RunFlagVar): bool {
    match v
    case TEMPEST_SERIAL => run.serial
    case TEMPEST_PARALLEL => run.parallel
    case TEMPEST_SMOKE => run.smoke
    case USE_EXTERNAL_FILES => true
  }

  function RunFlags(run: TempestRun): map<Var, bool> { map v: RunFlagVar | true :: RunFlag(v) := RunFlagValue(run, v) }

  function ConfFlagValue(conf: TempestconfRun, v: ConfFlagVar): bool {
    match v
    case TEMPESTCONF_CREATE => conf.create
    case TEMPESTCONF_COLLECT_TIMING => conf.collectTiming
    case TEMPESTCONF_INSECURE => conf.insecure
    case TEMPESTCONF_NO_DEFAULT_DEPLOYER => conf.noDefaultDeployer
    case TEMPESTCONF_DEBUG => conf.debug
    case TEMPESTCONF_VERBOSE => conf.verbose
    case TEMPESTCONF_NON_ADMIN => conf.nonAdmin
    case TEMPESTCONF_RETRY_IMAGE => conf.retryImage
    case TEMPESTCONF_CONVERT_TO_RAW => conf.convertToRaw
  }

  function ConfFlags(conf: TempestconfRun): map<Var, bool> {
    map v: ConfFlagVar | true :: ConfFlag(v) := ConfFlagValue(conf, v)
  }

  function ConfNumberValue(conf: TempestconfRun, v: ConfNumberVar): int {
    match v
    case TEMPESTCONF_TIMEOUT => conf.timeout
    case TEMPESTCONF_FLAVOR_MIN_MEM => conf.flavorMinMem
    case TEMPESTCONF_FLAVOR_MIN_DISK => conf.flavorMinDisk
  }

  function ConfNumbers(conf: TempestconfRun): map<Var, int> {
    map v: ConfNumberVar | true :: ConfNumber(v) := ConfNumberValue(conf, v)
  }

  function ConfTextValue(conf: TempestconfRun, v: ConfTextVar): string {
    match v
    case TEMPESTCONF_OUT => conf.out
    case TEMPESTCONF_CREATE_ACCOUNTS_FILE => conf.createAccountsFile
    case TEMPESTCONF_GENERATE_PROFILE => conf.generateProfile
    case TEMPESTCONF_IMAGE_DISK_FORMAT => conf.imageDiskFormat
    case TEMPESTCONF_IMAGE => conf.image
    case TEMPESTCONF_NETWORK_ID => conf.networkID
    case TEMPESTCONF_APPEND => conf.append
    case TEMPESTCONF_REMOVE => conf.remove
    case TEMPESTCONF_OVERRIDES => conf.overrides
  }

  function ConfTexts(conf: TempestconfRun): map<Var, string> {
    map v: ConfTextVar | true :: ConfText(v) := ConfTextValue(conf, v)
  }

  function ServiceText(spec: TempestSpec, v: ServiceVar): string {
    match v
    case TEMPEST_DEBUG_MODE => FormatBool(spec.debug)
    case TEMPEST_CLEANUP => FormatBool(spec.cleanup)
    case TEMPEST_RERUN_FAILED_TESTS => FormatBool(spec.rerunFailedTests)
    case TEMPEST_RERUN_OVERRIDE_STATUS => FormatBool(spec.rerunOverrideStatus)
    case TEMPEST_TIMING_DATA_URL => spec.timingDataUrl
  }

  function ServiceTexts(spec: TempestSpec): map<Var, string> {
    map v: ServiceVar | true :: Service(v) := ServiceText(spec, v)
  }

  function PluginText(p: Plugin, v: PluginVar): string {
    match v
    case TEMPEST_EXTERNAL_PLUGIN_GIT_URL => p.repository
    case TEMPEST_EXTERNAL_PLUGIN_CHANGE_URL => StringOrPlaceholder(p.changeRepository, "-")
    case TEMPEST_EXTERNAL_PLUGIN_REFSPEC => StringOrPlaceholder(p.changeRefspec, "-")
  }

  function PluginRow(p: Plugin): map<Var, string> { map v: PluginVar | true :: PluginColumn(v) := PluginText(p, v) }

  function ImageText(img: Image, v: ImageVar): string {
    match v
    case TEMPEST_EXTRA_IMAGES_URL => img.url
    case TEMPEST_EXTRA_IMAGES_OS_CLOUD => img.osCloud
    case TEMPEST_EXTRA_IMAGES_CONTAINER_FORMAT => img.containerFormat
    case TEMPEST_EXTRA_IMAGES_ID => img.id
    case TEMPEST_EXTRA_IMAGES_NAME => img.name
    case TEMPEST_EXTRA_IMAGES_DISK_FORMAT => img.diskFormat
    case TEMPEST_EXTRA_IMAGES_CREATE_TIMEOUT => Int64OrPlaceholder(img.creationTimeout, "")
    case TEMPEST_EXTRA_IMAGES_FLAVOR_ID => img.flavor.id
    case TEMPEST_EXTRA_IMAGES_FLAVOR_NAME => img.flavor.name
    case TEMPEST_EXTRA_IMAGES_FLAVOR_OS_CLOUD => img.flavor.osCloud
    case TEMPEST_EXTRA_IMAGES_FLAVOR_RAM => Int64OrPlaceholder(img.flavor.ram, "-")
    case TEMPEST_EXTRA_IMAGES_FLAVOR_DISK => Int64OrPlaceholder(img.flavor.disk, "-")
    case TEMPEST_EXTRA_IMAGES_FLAVOR_VCPUS => Int64OrPlaceholder(img.flavor.vcpus, "-")
  }

  function ImageRow(img: Image): map<Var, string> { map v: ImageVar | true :: ImageColumn(v) := ImageText(img, v) }

  function RpmRow(rpm: string): map<Var, string> { map[TEMPEST_EXTRA_RPMS := rpm] }

  function Rows<T>(list: seq<T>, row: T -> map<Var, string>): (rows: seq<map<Var, string>>)
    ensures |rows| == |list| && forall i | 0 <= i < |list| :: rows[i] == row(list[i])
  {
    seq(|list|, i requires 0 <= i < |list| => row(list[i]))
  }

  function PluginRows(run: TempestRun): seq<map<Var, string>> { Rows(run.externalPlugin, p => PluginRow(p)) }
  function ImageRows(run: TempestRun): seq<map<Var, string>> { Rows(run.extraImages, i => ImageRow(i)) }
  function RpmRows(run: TempestRun): seq<map<Var, string>> { Rows(run.extraRPMs, r => RpmRow(r)) }

  // ---- the setters as functions ----------------------------------------------------------------

  /** The variables and the files together. */
  datatype Maps = Maps(env: map<Var, string>, files: map<string, string>)

  const EMPTY := Maps(map[], map[])

  function PutFile(m: Maps, content: string, f: FileVar): Maps {
    if content == "" then m
    else Maps(m.env[File(f) := BASE_DIR + FileName(f)], m.files[FileName(f) := content])
  }

  function Formatted(flags: map<Var, bool>): map<Var, string> {
    map k | k in flags :: FormatBool(flags[k])
  }

  function FormattedNumbers(numbers: map<Var, int>): map<Var, string> {
    map k | k in numbers :: Int64OrPlaceholder(numbers[k], "")
  }

  function PutRunFiles(run: TempestRun, m: Maps): Maps {
    PutFile(PutFile(PutFile(PutFile(m,
      run.workerFile, TEMPEST_WORKER_FILE),
      run.includeList, TEMPEST_INCLUDE_LIST),
      run.excludeList, TEMPEST_EXCLUDE_LIST),
      run.expectedFailuresList, TEMPEST_EXPECTED_FAILURES_LIST)
  }

  function PutConfFiles(conf: TempestconfRun, m: Maps): Maps {
    PutFile(PutFile(PutFile(m,
      conf.deployerInput, TEMPESTCONF_DEPLOYER_INPUT),
      conf.testAccounts, TEMPESTCONF_TEST_ACCOUNTS),
      conf.profile, TEMPESTCONF_PROFILE)
  }

  function PutConcurrency(run: TempestRun, env: map<Var, string>): map<Var, string> {
    if run.concurrency > 0 then env[TEMPEST_CONCURRENCY := FormatNat(run.concurrency)] else env
  }

  function PutLists(run: TempestRun, dir: string, env: map<Var, string>): map<Var, string> {
    AddAll(AddAll(AddAll(env, PluginRows(run))[TEMPEST_WORKFLOW_STEP_DIR_NAME := dir], ImageRows(run)), RpmRows(run))
  }

  function RunVars(run: TempestRun, dir: string, m: Maps): Maps {
    var files := PutRunFiles(run, m);
    files.(env := PutLists(run, dir, PutConcurrency(run, files.env + Formatted(RunFlags(run)))))
  }

  function ConfVars(conf: TempestconfRun, m: Maps): Maps {
    var files := PutConfFiles(conf, m);
    files.(env := files.env + Formatted(ConfFlags(conf)) + FormattedNumbers(ConfNumbers(conf)) + ConfTexts(conf))
  }

  /** The contents of both config maps. */
  function Generated(spec: TempestSpec, name: string, step: int): Maps {
    var m := ConfVars(spec.conf, RunVars(spec.run, PodNames.GetPodName(name, spec.stepNames, step), EMPTY));
    Maps(m.env + ServiceTexts(spec), m.files + spec.configOverwrite)
  }

  // ---- the setters themselves ------------------------------------------------------------------

  /** The two maps that generateServiceConfigMaps fills in. */
  class ConfigData {
    var envVars: map<Var, string>
    var customData: map<string, string>

    constructor ()
      ensures View() == EMPTY
    {
      envVars, customData := map[], map[];
    }

    function View(): Maps
      reads this
    {
      Maps(envVars, customData)
    }

    method SetFileEnvVar(content: string, f: FileVar)
      modifies this
      ensures View() == PutFile(old(View()), content, f)
      ensures content == "" ==> View() == old(View())
      ensures content != "" ==> Lookup(envVars, File(f)) == Some(BASE_DIR + FileName(f))
      ensures content != "" ==> Lookup(customData, FileName(f)) == Some(content)
      ensures forall v | v != File(f) :: Lookup(envVars, v) == Lookup(old(envVars), v)
      ensures forall n | n != FileName(f) :: Lookup(customData, n) == Lookup(old(customData), n)
    {
      if |content| == 0 {
        return;
      }
      customData := customData[FileName(f) := content];
      envVars := envVars[File(f) := BASE_DIR + FileName(f)];
    }

    /** Whatever order the fields come in, each gets its text and a comma at the end. */
    method SetDictEnvVar(fields: map<Var, string>)
      modifies this
      ensures envVars == AddFields(old(envVars), fields)
      ensures customData == old(customData)
    {
      var rest := fields.Keys;
      while rest != {}
        invariant rest <= fields.Keys && customData == old(customData)
        invariant forall k | k in rest :: Lookup(envVars, k) == Lookup(old(envVars), k)
        invariant forall k | k !in rest :: Lookup(envVars, k) == Lookup(AddFields(old(envVars), fields), k)
        decreases |rest|
      {
        var k :| k in rest;
        assert Get(envVars, k) == Get(old(envVars), k);
        envVars := envVars[k := Get(envVars, k) + fields[k] + ","];
        rest := rest - {k};
      }
      SameLookups(envVars, AddFields(old(envVars), fields));
    }

    method SetBoolVars(flags: map<Var, bool>)
      modifies this
      ensures envVars == old(envVars) + Formatted(flags)
      ensures customData == old(customData)
    {
      var rest := flags.Keys;
      while rest != {}
        invariant rest <= flags.Keys && customData == old(customData)
        invariant forall k | k in rest :: Lookup(envVars, k) == Lookup(old(envVars), k)
        invariant forall k | k !in rest :: Lookup(envVars, k) == Lookup(old(envVars) + Formatted(flags), k)
        decreases |rest|
      {
        var k :| k in rest;
        envVars := envVars[k := FormatBool(flags[k])];
        rest := rest - {k};
      }
      SameLookups(envVars, old(envVars) + Formatted(flags));
    }

    method SetNumberVars(numbers: map<Var, int>)
      modifies this
      ensures envVars == old(envVars) + FormattedNumbers(numbers)
      ensures customData == old(customData)
    {
      var rest := numbers.Keys;
      while rest != {}
        invariant rest <= numbers.Keys && customData == old(customData)
        invariant forall k | k in rest :: Lookup(envVars, k) == Lookup(old(envVars), k)
        invariant forall k | k !in rest :: Lookup(envVars, k) == Lookup(old(envVars) + FormattedNumbers(numbers), k)
        decreases |rest|
      {
        var k :| k in rest;
        envVars := envVars[k := Int64OrPlaceholder(numbers[k], "")];
        rest := rest - {k};
      }
      SameLookups(envVars, old(envVars) + FormattedNumbers(numbers));
    }

    method SetRows(rows: seq<map<Var, string>>)
      modifies this
      ensures envVars == AddAll(old(envVars), rows)
      ensures customData == old(customData)
    {
      for i := 0 to |rows|
        invariant envVars == AddAll(old(envVars), rows[..i]) && customData == old(customData)
      {
        SetDictEnvVar(rows[i]);
        assert rows[..i + 1][..i] == rows[..i];
      }
      assert rows[..|rows|] == rows;
    }

    method SetTempestConfigVars(run: TempestRun, name: string, stepNames: seq<string>, step: int)
      modifies this
      ensures View() == RunVars(run, PodNames.GetPodName(name, stepNames, step), old(View()))
    {
      SetFileEnvVar(run.workerFile, TEMPEST_WORKER_FILE);
      SetFileEnvVar(run.includeList, TEMPEST_INCLUDE_LIST);
      SetFileEnvVar(run.excludeList, TEMPEST_EXCLUDE_LIST);
      SetFileEnvVar(run.expectedFailuresList, TEMPEST_EXPECTED_FAILURES_LIST);
      SetBoolVars(RunFlags(run));
      if run.concurrency > 0 {
        envVars := envVars[TEMPEST_CONCURRENCY := FormatNat(run.concurrency)];
      }
      SetRows(PluginRows(run));
      envVars := envVars[TEMPEST_WORKFLOW_STEP_DIR_NAME := PodNames.GetPodName(name, stepNames, step)];
      SetRows(ImageRows(run));
      SetRows(RpmRows(run));
    }

    method SetTempestconfConfigVars(conf: TempestconfRun)
      modifies this
      ensures View() == ConfVars(conf, old(View()))
    {
      SetFileEnvVar(conf.deployerInput, TEMPESTCONF_DEPLOYER_INPUT);
      SetFileEnvVar(conf.testAccounts, TEMPESTCONF_TEST_ACCOUNTS);
      SetFileEnvVar(conf.profile, TEMPESTCONF_PROFILE);
      SetBoolVars(ConfFlags(conf));
      SetNumberVars(ConfNumbers(conf));
      envVars := envVars + ConfTexts(conf);
    }
  }

  lemma SameLookups<K, V>(a: map<K, V>, b: map<K, V>)
    requires forall k :: Lookup(a, k) == Lookup(b, k)
    ensures a == b
  {
    forall k
      ensures k in a <==> k in b
      ensures k in a ==> a[k] == b[k]
    {
      assert Lookup(a, k) == Lookup(b, k);
    }
  }

  /** generateServiceConfigMaps up to the writing of the config maps. */
  method GenerateServiceConfigMaps(spec: TempestSpec, name: string, step: int) returns (data: ConfigData)
    ensures fresh(data) && data.View() == Generated(spec, name, step)
  {
    data := new ConfigData();
    data.SetTempestConfigVars(spec.run, name, spec.stepNames, step);
    data.SetTempestconfConfigVars(spec.conf);
    data.customData := data.customData + spec.configOverwrite;
    data.envVars := data.envVars + ServiceTexts(spec);
  }
}
