/** The exact texts that a Tempest pod finds in its variables, placeholders included. */
module TempestTexts {
  import opened Types
  import opened Decimal
  import opened EnvColumns
  import opened TempestEnv
  import opened TempestEnvProperties
  import opened TempestReadBack

  // ---- single variables ------------------------------------------------------------------------

  /** Flags are "true" or "false", external files are always used, and the concurrency is there when it is
      positive. */
  predicate RunTextsAre(run: TempestRun, env: map<Var, string>) {
    && Lookup(env, RunFlag(TEMPEST_SERIAL)) == Some(if run.serial then "true" else "false")
    && Lookup(env, RunFlag(TEMPEST_PARALLEL)) == Some(if run.parallel then "true" else "false")
    && Lookup(env, RunFlag(TEMPEST_SMOKE)) == Some(if run.smoke then "true" else "false")
    && Lookup(env, RunFlag(USE_EXTERNAL_FILES)) == Some("true")
    && Lookup(env, TEMPEST_CONCURRENCY) == (if run.concurrency > 0 then Some(FormatNat(run.concurrency)) else None)
  }

  lemma RunFlagWritten(spec: TempestSpec, name: string, step: int, v: RunFlagVar)
    ensures Lookup(Generated(spec, name, step).env, RunFlag(v)) == Some(FormatBool(RunFlagValue(spec.run, v)))
  {
    GeneratedVar(spec, name, step, RunFlag(v));
    assert RunFlags(spec.run)[RunFlag(v)] == RunFlagValue(spec.run, v);
  }

  lemma RunTexts(spec: TempestSpec, name: string, step: int)
    ensures RunTextsAre(spec.run, Generated(spec, name, step).env)
  {
    forall v
      ensures Lookup(Generated(spec, name, step).env, RunFlag(v)) == Some(FormatBool(RunFlagValue(spec.run, v)))
    {
      RunFlagWritten(spec, name, step, v);
    }
    GeneratedVar(spec, name, step, TEMPEST_CONCURRENCY);
    RunTextsFollow(spec.run, Generated(spec, name, step).env);
  }

  lemma RunTextsFollow(run: TempestRun, env: map<Var, string>)
    requires forall v :: Lookup(env, RunFlag(v)) == Some(FormatBool(RunFlagValue(run, v)))
    requires Lookup(env, TEMPEST_CONCURRENCY) == if run.concurrency > 0 then Some(FormatNat(run.concurrency)) else None
    ensures RunTextsAre(run, env)
  {
    assert RunFlagValue(run, TEMPEST_SERIAL) == run.serial && RunFlagValue(run, TEMPEST_PARALLEL) == run.parallel;
    assert RunFlagValue(run, TEMPEST_SMOKE) == run.smoke && RunFlagValue(run, USE_EXTERNAL_FILES);
  }

  /** Flags are "true" or "false", and a number that is not positive is an empty text. */
  ghost predicate ConfTextsAre(conf: TempestconfRun, env: map<Var, string>) {
    && (forall v: ConfFlagVar :: Lookup(env, ConfFlag(v)) == Some("true") || Lookup(env, ConfFlag(v)) == Some("false"))
    && Lookup(env, ConfNumber(TEMPESTCONF_TIMEOUT)) == Some(if conf.timeout > 0 then FormatNat(conf.timeout) else "")
    && Lookup(env, ConfNumber(TEMPESTCONF_FLAVOR_MIN_MEM))
       == Some(if conf.flavorMinMem > 0 then FormatNat(conf.flavorMinMem) else "")
    && Lookup(env, ConfNumber(TEMPESTCONF_FLAVOR_MIN_DISK))
       == Some(if conf.flavorMinDisk > 0 then FormatNat(conf.flavorMinDisk) else "")
  }

  lemma ConfFlagWritten(spec: TempestSpec, name: string, step: int, v: ConfFlagVar)
    ensures Lookup(Generated(spec, name, step).env, ConfFlag(v)) == Some(FormatBool(ConfFlagValue(spec.conf, v)))
  {
    GeneratedVar(spec, name, step, ConfFlag(v));
    assert ConfFlags(spec.conf)[ConfFlag(v)] == ConfFlagValue(spec.conf, v);
  }

  lemma ConfNumberWritten(spec: TempestSpec, name: string, step: int, v: ConfNumberVar)
    ensures Lookup(Generated(spec, name, step).env, ConfNumber(v))
            == Some(Int64OrPlaceholder(ConfNumberValue(spec.conf, v), ""))
  {
    GeneratedVar(spec, name, step, ConfNumber(v));
    assert ConfNumbers(spec.conf)[ConfNumber(v)] == ConfNumberValue(spec.conf, v);
  }

  lemma ConfTextsShown(spec: TempestSpec, name: string, step: int)
    ensures ConfTextsAre(spec.conf, Generated(spec, name, step).env)
  {
    var env := Generated(spec, name, step).env;
    forall v ensures Lookup(env, ConfFlag(v)) == Some(FormatBool(ConfFlagValue(spec.conf, v))) {
      ConfFlagWritten(spec, name, step, v);
    }
    forall v ensures Lookup(env, ConfNumber(v)) == Some(Int64OrPlaceholder(ConfNumberValue(spec.conf, v), "")) {
      ConfNumberWritten(spec, name, step, v);
    }
    ConfTextsFollow(spec.conf, env);
  }

  lemma ConfTextsFollow(conf: TempestconfRun, env: map<Var, string>)
    requires forall v :: Lookup(env, ConfFlag(v)) == Some(FormatBool(ConfFlagValue(conf, v)))
    requires forall v :: Lookup(env, ConfNumber(v)) == Some(Int64OrPlaceholder(ConfNumberValue(conf, v), ""))
    ensures ConfTextsAre(conf, env)
  {
  }

  /** Where the container finds a file. */
  function PathOf(f: FileVar): string {
    "/etc/test_operator/"
    + match f
      case TEMPEST_WORKER_FILE => "worker_file.yaml"
      case TEMPEST_INCLUDE_LIST => "include.txt"
      case TEMPEST_EXCLUDE_LIST => "exclude.txt"
      case TEMPEST_EXPECTED_FAILURES_LIST => "expected_failures.txt"
      case TEMPESTCONF_DEPLOYER_INPUT => "deployer_input.ini"
      case TEMPESTCONF_TEST_ACCOUNTS => "accounts.yaml"
      case TEMPESTCONF_PROFILE => "profile.yaml"
  }

  lemma FilePaths(spec: TempestSpec, name: string, step: int, f: FileVar)
    ensures Lookup(Generated(spec, name, step).env, File(f)) == if Content(spec, f) == "" then None else Some(PathOf(f))
  {
    FileVarSet(spec, name, step, f);
    PathIs(f);
  }

  lemma PathIs(f: FileVar)
    ensures BASE_DIR + FileName(f) == PathOf(f)
  {
  }

  // ---- the entries of the columns --------------------------------------------------------------

  /** An entry is never missing: what the user leaves out is a dash. */
  lemma PluginEntries(spec: TempestSpec, name: string, step: int, i: nat)
    requires CommaFreeLists(spec.run) && i < |spec.run.externalPlugin|
    ensures var m, p := Generated(spec, name, step), spec.run.externalPlugin[i];
            && PluginEntry(m, i, TEMPEST_EXTERNAL_PLUGIN_GIT_URL) == p.repository
            && PluginEntry(m, i, TEMPEST_EXTERNAL_PLUGIN_CHANGE_URL)
               == (if p.changeRepository == "" then "-" else p.changeRepository)
            && PluginEntry(m, i, TEMPEST_EXTERNAL_PLUGIN_REFSPEC)
               == (if p.changeRefspec == "" then "-" else p.changeRefspec)
  {
    PluginColumnReads(spec, name, step, TEMPEST_EXTERNAL_PLUGIN_GIT_URL);
    PluginColumnReads(spec, name, step, TEMPEST_EXTERNAL_PLUGIN_CHANGE_URL);
    PluginColumnReads(spec, name, step, TEMPEST_EXTERNAL_PLUGIN_REFSPEC);
    PluginEntriesFollow(Generated(spec, name, step), spec.run.externalPlugin, i);
  }

  lemma PluginEntriesFollow(m: Maps, plugins: seq<Plugin>, i: nat)
    requires i < |plugins| && PluginColumnIs(m, plugins, TEMPEST_EXTERNAL_PLUGIN_GIT_URL)
    requires PluginColumnIs(m, plugins, TEMPEST_EXTERNAL_PLUGIN_CHANGE_URL)
    requires PluginColumnIs(m, plugins, TEMPEST_EXTERNAL_PLUGIN_REFSPEC)
    ensures PluginEntry(m, i, TEMPEST_EXTERNAL_PLUGIN_GIT_URL) == plugins[i].repository
    ensures PluginEntry(m, i, TEMPEST_EXTERNAL_PLUGIN_CHANGE_URL)
            == if plugins[i].changeRepository == "" then "-" else plugins[i].changeRepository
    ensures PluginEntry(m, i, TEMPEST_EXTERNAL_PLUGIN_REFSPEC)
            == if plugins[i].changeRefspec == "" then "-" else plugins[i].changeRefspec
  {
  }

  /** Of an image, a missing timeout is an empty entry and a missing number of its flavor a dash; texts stand
      as they are. */
  predicate ImageEntriesAre(entry: ImageVar -> string, img: Image) {
    && entry(TEMPEST_EXTRA_IMAGES_URL) == img.url && entry(TEMPEST_EXTRA_IMAGES_OS_CLOUD) == img.osCloud
    && entry(TEMPEST_EXTRA_IMAGES_CONTAINER_FORMAT) == img.containerFormat && entry(TEMPEST_EXTRA_IMAGES_ID) == img.id
    && entry(TEMPEST_EXTRA_IMAGES_NAME) == img.name && entry(TEMPEST_EXTRA_IMAGES_DISK_FORMAT) == img.diskFormat
    && entry(TEMPEST_EXTRA_IMAGES_CREATE_TIMEOUT)
       == (if img.creationTimeout > 0 then FormatNat(img.creationTimeout) else "")
    && entry(TEMPEST_EXTRA_IMAGES_FLAVOR_ID) == img.flavor.id
    && entry(TEMPEST_EXTRA_IMAGES_FLAVOR_NAME) == img.flavor.name
    && entry(TEMPEST_EXTRA_IMAGES_FLAVOR_OS_CLOUD) == img.flavor.osCloud
    && entry(TEMPEST_EXTRA_IMAGES_FLAVOR_RAM) == (if img.flavor.ram > 0 then FormatNat(img.flavor.ram) else "-")
    && entry(TEMPEST_EXTRA_IMAGES_FLAVOR_DISK) == (if img.flavor.disk > 0 then FormatNat(img.flavor.disk) else "-")
    && entry(TEMPEST_EXTRA_IMAGES_FLAVOR_VCPUS) == (if img.flavor.vcpus > 0 then FormatNat(img.flavor.vcpus) else "-")
  }

  lemma ImageEntriesFollow(entry: ImageVar -> string, img: Image)
    requires forall c: ImageVar :: entry(c) == ImageText(img, c)
    ensures ImageEntriesAre(entry, img)
  {
  }

  lemma ImageEntries(spec: TempestSpec, name: string, step: int, i: nat)
    requires CommaFreeLists(spec.run) && i < |spec.run.extraImages|
    ensures ImageEntriesAre(c => ImageEntry(Generated(spec, name, step), i, c), spec.run.extraImages[i])
  {
    var entry := c => ImageEntry(Generated(spec, name, step), i, c);
    forall c ensures entry(c) == ImageText(spec.run.extraImages[i], c) {
      ImageEntryReads(spec, name, step, c, i);
    }
    ImageEntriesFollow(entry, spec.run.extraImages[i]);
  }
}
