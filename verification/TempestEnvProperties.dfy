/** What a Tempest pod can rely on: its variables and files give back the spec. */
module TempestEnvProperties {
  import opened Types
  import opened Decimal
  import opened EnvColumns
  import opened TempestEnv
  import PodNames

  // ---- what each setter writes, variable by variable -------------------------------------------

  predicate OfConf(f: FileVar) {
    f.TEMPESTCONF_DEPLOYER_INPUT? || f.TEMPESTCONF_TEST_ACCOUNTS? || f.TEMPESTCONF_PROFILE?
  }

  function RunContent(run: TempestRun, f: FileVar): string {
    match f
    case TEMPEST_WORKER_FILE => run.workerFile
    case TEMPEST_INCLUDE_LIST => run.includeList
    case TEMPEST_EXCLUDE_LIST => run.excludeList
    case TEMPEST_EXPECTED_FAILURES_LIST => run.expectedFailuresList
    case _ => ""
  }

  function ConfContent(conf: TempestconfRun, f: FileVar): string {
    match f
    case TEMPESTCONF_DEPLOYER_INPUT => conf.deployerInput
    case TEMPESTCONF_TEST_ACCOUNTS => conf.testAccounts
    case TEMPESTCONF_PROFILE => conf.profile
    case _ => ""
  }

  function FileFor(name: string): Option<FileVar> {
    if name == "worker_file.yaml" then Some(TEMPEST_WORKER_FILE)
    else if name == "include.txt" then Some(TEMPEST_INCLUDE_LIST)
    else if name == "exclude.txt" then Some(TEMPEST_EXCLUDE_LIST)
    else if name == "expected_failures.txt" then Some(TEMPEST_EXPECTED_FAILURES_LIST)
    else if name == "deployer_input.ini" then Some(TEMPESTCONF_DEPLOYER_INPUT)
    else if name == "accounts.yaml" then Some(TEMPESTCONF_TEST_ACCOUNTS)
    else if name == "profile.yaml" then Some(TEMPESTCONF_PROFILE)
    else None
  }

  lemma FileNamesDiffer(f: FileVar)
    ensures FileFor(FileName(f)) == Some(f)
  {
    assert "include.txt"[0] != "exclude.txt"[0];
  }

  lemma FileForIsFileName(name: string)
    ensures FileFor(name).Some? ==> FileName(FileFor(name).value) == name
  {
  }

  /** The rows of a list fill the variables of their own group and no others. */
  lemma RowsFill(run: TempestRun, v: Var)
    ensures if v.PluginColumn? then HaveColumn(PluginRows(run), v) else forall r | r in PluginRows(run) :: v !in r
    ensures if v.ImageColumn? then HaveColumn(ImageRows(run), v) else forall r | r in ImageRows(run) :: v !in r
    ensures if v == TEMPEST_EXTRA_RPMS then HaveColumn(RpmRows(run), v) else forall r | r in RpmRows(run) :: v !in r
  {
    forall r | r in PluginRows(run)
      ensures v in r <==> v.PluginColumn?
    {
      var i :| 0 <= i < |PluginRows(run)| && PluginRows(run)[i] == r;
      assert r == PluginRow(run.externalPlugin[i]);
    }
    forall r | r in ImageRows(run)
      ensures v in r <==> v.ImageColumn?
    {
      var i :| 0 <= i < |ImageRows(run)| && ImageRows(run)[i] == r;
      assert r == ImageRow(run.extraImages[i]);
    }
  }

  /** What setTempestConfigVars leaves in a variable that held `was`. */
  function RunWrites(run: TempestRun, dir: string, v: Var, was: Option<string>): Option<string> {
    RowsFill(run, v);
    match v
    case File(f) => if RunContent(run, f) == "" then was else Some(BASE_DIR + FileName(f))
    case RunFlag(_) => Lookup(Formatted(RunFlags(run)), v)
    case PluginColumn(_) => Appended(was, PluginRows(run), v)
    case ImageColumn(_) => Appended(was, ImageRows(run), v)
    case TEMPEST_EXTRA_RPMS => Appended(was, RpmRows(run), v)
    case TEMPEST_CONCURRENCY => if run.concurrency > 0 then Some(FormatNat(run.concurrency)) else was
    case TEMPEST_WORKFLOW_STEP_DIR_NAME => Some(dir)
    case _ => was
  }

  function ConfWrites(conf: TempestconfRun, v: Var, was: Option<string>): Option<string> {
    match v
    case File(f) => if ConfContent(conf, f) == "" then was else Some(BASE_DIR + FileName(f))
    case ConfFlag(_) => Lookup(Formatted(ConfFlags(conf)), v)
    case ConfNumber(_) => Lookup(FormattedNumbers(ConfNumbers(conf)), v)
    case ConfText(_) => Lookup(ConfTexts(conf), v)
    case _ => was
  }

  lemma RunFilesEnv(run: TempestRun, m: Maps, v: Var)
    ensures Lookup(PutRunFiles(run, m).env, v)
            == if v.File? && RunContent(run, v.file) != "" then Some(BASE_DIR + FileName(v.file)) else Lookup(m.env, v)
  {
  }

  lemma ConfFilesEnv(conf: TempestconfRun, m: Maps, v: Var)
    ensures Lookup(PutConfFiles(conf, m).env, v)
            == if v.File? && ConfContent(conf, v.file) != "" then Some(BASE_DIR + FileName(v.file))
               else Lookup(m.env, v)
  {
  }

  lemma RowsWrite(env: map<Var, string>, rows: seq<map<Var, string>>, v: Var)
    ensures HaveColumn(rows, v) ==> Lookup(AddAll(env, rows), v) == Appended(Lookup(env, v), rows, v)
    ensures (forall r | r in rows :: v !in r) ==> Lookup(AddAll(env, rows), v) == Lookup(env, v)
  {
    if HaveColumn(rows, v) { AddAllColumn(env, rows, v); }
    if forall r | r in rows :: v !in r { AddAllElsewhere(env, rows, v); }
  }

  /** What the lists, and the step directory set between them, leave in a variable. */
  lemma ListsWrite(run: TempestRun, dir: string, env: map<Var, string>, v: Var)
    ensures v.PluginColumn? || v.ImageColumn? || v == TEMPEST_EXTRA_RPMS || v == TEMPEST_WORKFLOW_STEP_DIR_NAME
            ==> Lookup(PutLists(run, dir, env), v) == RunWrites(run, dir, v, Lookup(env, v))
    ensures !(v.PluginColumn? || v.ImageColumn? || v == TEMPEST_EXTRA_RPMS || v == TEMPEST_WORKFLOW_STEP_DIR_NAME)
            ==> Lookup(PutLists(run, dir, env), v) == Lookup(env, v)
  {
    RowsFill(run, v);
    var e1 := AddAll(env, PluginRows(run));
    var e2 := e1[TEMPEST_WORKFLOW_STEP_DIR_NAME := dir];
    var e3 := AddAll(e2, ImageRows(run));
    RowsWrite(env, PluginRows(run), v);
    RowsWrite(e2, ImageRows(run), v);
    RowsWrite(e3, RpmRows(run), v);
  }

  lemma LookupSum<K, V>(a: map<K, V>, b: map<K, V>, k: K)
    ensures Lookup(a + b, k) == if k in b then Lookup(b, k) else Lookup(a, k)
  {
  }

  lemma RunWritesThat(run: TempestRun, dir: string, m: Maps, v: Var)
    ensures Lookup(RunVars(run, dir, m).env, v) == RunWrites(run, dir, v, Lookup(m.env, v))
  {
    var files := PutRunFiles(run, m);
    var e := files.env + Formatted(RunFlags(run));
    RunFilesEnv(run, m, v);
    LookupSum(files.env, Formatted(RunFlags(run)), v);
    ListsWrite(run, dir, PutConcurrency(run, e), v);
  }

  lemma ConfWritesThat(conf: TempestconfRun, m: Maps, v: Var)
    ensures Lookup(ConfVars(conf, m).env, v) == ConfWrites(conf, v, Lookup(m.env, v))
  {
    ConfFilesEnv(conf, m, v);
    var e := PutConfFiles(conf, m).env;
    LookupSum(e, Formatted(ConfFlags(conf)), v);
    LookupSum(e + Formatted(ConfFlags(conf)), FormattedNumbers(ConfNumbers(conf)), v);
    LookupSum(e + Formatted(ConfFlags(conf)) + FormattedNumbers(ConfNumbers(conf)), ConfTexts(conf), v);
  }

  // ---- the files -------------------------------------------------------------------------------

  function FileWrites(content: string, was: Option<string>): Option<string> {
    if content == "" then was else Some(content)
  }

  lemma PutFileThat(m: Maps, content: string, f: FileVar, name: string)
    ensures Lookup(PutFile(m, content, f).files, name)
            == if FileFor(name) == Some(f) then FileWrites(content, Lookup(m.files, name)) else Lookup(m.files, name)
  {
    FileNamesDiffer(f);
    FileForIsFileName(name);
  }

  lemma RunFilesThat(run: TempestRun, dir: string, m: Maps, name: string)
    ensures Lookup(RunVars(run, dir, m).files, name)
            == match FileFor(name)
               case Some(f) => FileWrites(RunContent(run, f), Lookup(m.files, name))
               case None => Lookup(m.files, name)
  {
    var m1 := PutFile(m, run.workerFile, TEMPEST_WORKER_FILE);
    var m2 := PutFile(m1, run.includeList, TEMPEST_INCLUDE_LIST);
    var m3 := PutFile(m2, run.excludeList, TEMPEST_EXCLUDE_LIST);
    PutFileThat(m, run.workerFile, TEMPEST_WORKER_FILE, name);
    PutFileThat(m1, run.includeList, TEMPEST_INCLUDE_LIST, name);
    PutFileThat(m2, run.excludeList, TEMPEST_EXCLUDE_LIST, name);
    PutFileThat(m3, run.expectedFailuresList, TEMPEST_EXPECTED_FAILURES_LIST, name);
  }

  lemma ConfFilesThat(conf: TempestconfRun, m: Maps, name: string)
    ensures Lookup(ConfVars(conf, m).files, name)
            == match FileFor(name)
               case Some(f) => FileWrites(ConfContent(conf, f), Lookup(m.files, name))
               case None => Lookup(m.files, name)
  {
    var m1 := PutFile(m, conf.deployerInput, TEMPESTCONF_DEPLOYER_INPUT);
    var m2 := PutFile(m1, conf.testAccounts, TEMPESTCONF_TEST_ACCOUNTS);
    PutFileThat(m, conf.deployerInput, TEMPESTCONF_DEPLOYER_INPUT, name);
    PutFileThat(m1, conf.testAccounts, TEMPESTCONF_TEST_ACCOUNTS, name);
    PutFileThat(m2, conf.profile, TEMPESTCONF_PROFILE, name);
  }

  // ---- the setters do not get in each other's way ----------------------------------------------

  lemma OneSetterEach(run: TempestRun, conf: TempestconfRun, dir: string, v: Var, was: Option<string>)
    ensures RunWrites(run, dir, v, was) == was || ConfWrites(conf, v, was) == was
    ensures ConfWrites(conf, v, RunWrites(run, dir, v, was)) == RunWrites(run, dir, v, ConfWrites(conf, v, was))
  {
  }

  lemma OneFileEach(run: TempestRun, conf: TempestconfRun, f: FileVar)
    ensures RunContent(run, f) == "" || ConfContent(conf, f) == ""
  {
  }

  /** The two setters may run in either order, whatever the maps held before. */
  lemma SettersCommute(run: TempestRun, conf: TempestconfRun, dir: string, m: Maps)
    ensures ConfVars(conf, RunVars(run, dir, m)) == RunVars(run, dir, ConfVars(conf, m))
  {
    var rc, cr := RunVars(run, dir, m), ConfVars(conf, m);
    forall v: Var
      ensures Lookup(ConfVars(conf, rc).env, v) == Lookup(RunVars(run, dir, cr).env, v)
    {
      RunWritesThat(run, dir, m, v);
      ConfWritesThat(conf, rc, v);
      ConfWritesThat(conf, m, v);
      RunWritesThat(run, dir, cr, v);
      OneSetterEach(run, conf, dir, v, Lookup(m.env, v));
    }
    SameLookups(ConfVars(conf, rc).env, RunVars(run, dir, cr).env);
    forall name: string
      ensures Lookup(ConfVars(conf, rc).files, name) == Lookup(RunVars(run, dir, cr).files, name)
    {
      RunFilesThat(run, dir, m, name);
      ConfFilesThat(conf, rc, name);
      ConfFilesThat(conf, m, name);
      RunFilesThat(run, dir, cr, name);
      if FileFor(name).Some? { OneFileEach(run, conf, FileFor(name).value); }
    }
    SameLookups(ConfVars(conf, rc).files, RunVars(run, dir, cr).files);
  }

  // ---- the generated config maps ---------------------------------------------------------------

  function Content(spec: TempestSpec, f: FileVar): string {
    if OfConf(f) then ConfContent(spec.conf, f) else RunContent(spec.run, f)
  }

  lemma GeneratedVar(spec: TempestSpec, name: string, step: int, v: Var)
    ensures Lookup(Generated(spec, name, step).env, v)
            == if v.Service? then Some(ServiceText(spec, v.service))
               else ConfWrites(spec.conf, v,
                               RunWrites(spec.run, PodNames.GetPodName(name, spec.stepNames, step), v, None))
  {
    var dir := PodNames.GetPodName(name, spec.stepNames, step);
    var m := RunVars(spec.run, dir, EMPTY);
    RunWritesThat(spec.run, dir, EMPTY, v);
    ConfWritesThat(spec.conf, m, v);
    LookupSum(ConfVars(spec.conf, m).env, ServiceTexts(spec), v);
  }

  lemma GeneratedFile(spec: TempestSpec, name: string, step: int, file: string)
    ensures Lookup(Generated(spec, name, step).files, file)
            == if file in spec.configOverwrite then Some(spec.configOverwrite[file])
               else if FileFor(file).Some? && Content(spec, FileFor(file).value) != ""
               then Some(Content(spec, FileFor(file).value)) else None
  {
    var dir := PodNames.GetPodName(name, spec.stepNames, step);
    var m := RunVars(spec.run, dir, EMPTY);
    RunFilesThat(spec.run, dir, EMPTY, file);
    ConfFilesThat(spec.conf, m, file);
    LookupSum(ConfVars(spec.conf, m).files, spec.configOverwrite, file);
  }

  lemma FileVarSet(spec: TempestSpec, name: string, step: int, f: FileVar)
    ensures Lookup(Generated(spec, name, step).env, File(f))
            == if Content(spec, f) == "" then None else Some(BASE_DIR + FileName(f))
  {
    GeneratedVar(spec, name, step, File(f));
  }

  lemma FileWritten(spec: TempestSpec, name: string, step: int, f: FileVar)
    ensures Lookup(Generated(spec, name, step).files, FileName(f))
            == if FileName(f) in spec.configOverwrite then Some(spec.configOverwrite[FileName(f)])
               else if Content(spec, f) != "" then Some(Content(spec, f)) else None
  {
    FileNamesDiffer(f);
    GeneratedFile(spec, name, step, FileName(f));
  }

  /** A file variable is set exactly when the spec has content for it; it then names a key that is
      in the custom data. What stands there is the spec's content unless configOverwrite replaces it;
      an overwrite never takes a file away. */
  lemma FileVarsNameFiles(spec: TempestSpec, name: string, step: int, f: FileVar)
    ensures var m := Generated(spec, name, step);
            && (File(f) in m.env <==> Content(spec, f) != "")
            && (File(f) in m.env ==> m.env[File(f)] == BASE_DIR + FileName(f) && FileName(f) in m.files)
            && (File(f) in m.env ==>
                  m.files[FileName(f)] == if FileName(f) in spec.configOverwrite then spec.configOverwrite[FileName(f)]
                                          else Content(spec, f))
  {
    FileVarSet(spec, name, step, f);
    FileWritten(spec, name, step, f);
  }
}
