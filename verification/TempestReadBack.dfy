/** Reading a Tempest pod's variables and files back gives the spec they were made from. */
module TempestReadBack {
  import opened Types
  import opened Decimal
  import opened EnvColumns
  import opened TempestEnv
  import opened TempestEnvProperties
  import PodNames

  // ---- reading ---------------------------------------------------------------------------------

  function ReadFile(m: Maps, f: FileVar): string {
    var path := Get(m.env, File(f));
    if BASE_DIR <= path then Get(m.files, path[|BASE_DIR|..]) else ""
  }

  predicate ReadFlag(m: Maps, v: Var) { Get(m.env, v) == "true" }

  /** A placeholder, or no text at all, reads as zero. */
  function ReadNumber(s: string): nat { ParseNat(s) }

  function ReadPlaceholder(s: string): string { if s == "-" then "" else s }

  /** The entry of a column at a position; empty when the column is too short. */
  function At(column: seq<string>, i: nat): string { if i < |column| then column[i] else "" }

  function PluginEntry(m: Maps, i: nat, c: PluginVar): string { At(ColumnOf(m.env, PluginColumn(c)), i) }

  function ReadPlugin(m: Maps, i: nat): Plugin {
    Plugin(PluginEntry(m, i, TEMPEST_EXTERNAL_PLUGIN_GIT_URL),
           ReadPlaceholder(PluginEntry(m, i, TEMPEST_EXTERNAL_PLUGIN_CHANGE_URL)),
           ReadPlaceholder(PluginEntry(m, i, TEMPEST_EXTERNAL_PLUGIN_REFSPEC)))
  }

  function ReadPlugins(m: Maps): seq<Plugin> {
    seq(|ColumnOf(m.env, PluginColumn(TEMPEST_EXTERNAL_PLUGIN_GIT_URL))|, i requires 0 <= i => ReadPlugin(m, i))
  }

  function ImageEntry(m: Maps, i: nat, c: ImageVar): string { At(ColumnOf(m.env, ImageColumn(c)), i) }

  function ImageFrom(entry: ImageVar -> string): Image {
    Image(entry(TEMPEST_EXTRA_IMAGES_URL), entry(TEMPEST_EXTRA_IMAGES_OS_CLOUD),
          entry(TEMPEST_EXTRA_IMAGES_CONTAINER_FORMAT), entry(TEMPEST_EXTRA_IMAGES_ID),
          entry(TEMPEST_EXTRA_IMAGES_NAME), entry(TEMPEST_EXTRA_IMAGES_DISK_FORMAT),
          ReadNumber(entry(TEMPEST_EXTRA_IMAGES_CREATE_TIMEOUT)),
          Flavor(entry(TEMPEST_EXTRA_IMAGES_FLAVOR_ID), entry(TEMPEST_EXTRA_IMAGES_FLAVOR_NAME),
                 entry(TEMPEST_EXTRA_IMAGES_FLAVOR_OS_CLOUD),
                 ReadNumber(entry(TEMPEST_EXTRA_IMAGES_FLAVOR_RAM)),
                 ReadNumber(entry(TEMPEST_EXTRA_IMAGES_FLAVOR_DISK)),
                 ReadNumber(entry(TEMPEST_EXTRA_IMAGES_FLAVOR_VCPUS))))
  }

  function ReadImage(m: Maps, i: nat): Image { ImageFrom(c => ImageEntry(m, i, c)) }

  function ReadImages(m: Maps): seq<Image> {
    seq(|ColumnOf(m.env, ImageColumn(TEMPEST_EXTRA_IMAGES_URL))|, i requires 0 <= i => ReadImage(m, i))
  }

  function ReadRun(m: Maps): TempestRun {
    TempestRun(
      ReadFile(m, TEMPEST_WORKER_FILE), ReadFile(m, TEMPEST_INCLUDE_LIST), ReadFile(m, TEMPEST_EXCLUDE_LIST),
      ReadFile(m, TEMPEST_EXPECTED_FAILURES_LIST),
      ReadFlag(m, RunFlag(TEMPEST_SERIAL)), ReadFlag(m, RunFlag(TEMPEST_PARALLEL)), ReadFlag(m, RunFlag(TEMPEST_SMOKE)),
      ReadNumber(Get(m.env, TEMPEST_CONCURRENCY)), ReadPlugins(m), ReadImages(m), ColumnOf(m.env, TEMPEST_EXTRA_RPMS))
  }

  function ConfFrom(file: FileVar -> string, flag: ConfFlagVar -> bool, number: ConfNumberVar -> nat,
                    text: ConfTextVar -> string): TempestconfRun
  {
    TempestconfRun(
      file(TEMPESTCONF_DEPLOYER_INPUT), file(TEMPESTCONF_TEST_ACCOUNTS), file(TEMPESTCONF_PROFILE),
      flag(TEMPESTCONF_CREATE), flag(TEMPESTCONF_COLLECT_TIMING), flag(TEMPESTCONF_INSECURE),
      flag(TEMPESTCONF_NO_DEFAULT_DEPLOYER), flag(TEMPESTCONF_DEBUG), flag(TEMPESTCONF_VERBOSE),
      flag(TEMPESTCONF_NON_ADMIN), flag(TEMPESTCONF_RETRY_IMAGE), flag(TEMPESTCONF_CONVERT_TO_RAW),
      number(TEMPESTCONF_TIMEOUT), number(TEMPESTCONF_FLAVOR_MIN_MEM), number(TEMPESTCONF_FLAVOR_MIN_DISK),
      text(TEMPESTCONF_OUT), text(TEMPESTCONF_CREATE_ACCOUNTS_FILE), text(TEMPESTCONF_GENERATE_PROFILE),
      text(TEMPESTCONF_IMAGE_DISK_FORMAT), text(TEMPESTCONF_IMAGE), text(TEMPESTCONF_NETWORK_ID),
      text(TEMPESTCONF_APPEND), text(TEMPESTCONF_REMOVE), text(TEMPESTCONF_OVERRIDES))
  }

  function ReadConf(m: Maps): TempestconfRun {
    ConfFrom(f => ReadFile(m, f), v => ReadFlag(m, ConfFlag(v)), v => ReadNumber(Get(m.env, ConfNumber(v))),
             v => Get(m.env, ConfText(v)))
  }

  // ---- what the placeholders identify ----------------------------------------------------------

  function Positive(n: int): nat { if n > 0 then n else 0 }

  function CanonPlugin(p: Plugin): Plugin {
    p.(changeRepository := ReadPlaceholder(p.changeRepository), changeRefspec := ReadPlaceholder(p.changeRefspec))
  }

  function CanonImage(img: Image): Image {
    img.(creationTimeout := Positive(img.creationTimeout),
         flavor := img.flavor.(ram := Positive(img.flavor.ram), disk := Positive(img.flavor.disk),
                               vcpus := Positive(img.flavor.vcpus)))
  }

  function CanonRun(run: TempestRun): TempestRun {
    run.(concurrency := Positive(run.concurrency),
         externalPlugin := seq(|run.externalPlugin|,
                               i requires 0 <= i < |run.externalPlugin| => CanonPlugin(run.externalPlugin[i])),
         extraImages := seq(|run.extraImages|, i requires 0 <= i < |run.extraImages| => CanonImage(run.extraImages[i])))
  }

  function CanonConf(conf: TempestconfRun): TempestconfRun {
    conf.(timeout := Positive(conf.timeout), flavorMinMem := Positive(conf.flavorMinMem),
          flavorMinDisk := Positive(conf.flavorMinDisk))
  }

  lemma NumberReads(n: int, placeholder: string)
    requires placeholder == "" || placeholder == "-"
    ensures ReadNumber(Int64OrPlaceholder(n, placeholder)) == Positive(n)
    ensures ',' !in Int64OrPlaceholder(n, placeholder)
  {
    if n > 0 {
      ParseUndoesFormat(n);
    } else {
      assert "-"[..0] == "";
    }
  }

  // ---- the columns of a group align exactly when no text has a comma ---------------------------

  predicate NoComma(s: string) { ',' !in s }

  predicate CommaFreePlugin(p: Plugin) {
    NoComma(p.repository) && NoComma(p.changeRepository) && NoComma(p.changeRefspec)
  }

  predicate CommaFreeImage(img: Image) {
    && NoComma(img.url) && NoComma(img.osCloud) && NoComma(img.containerFormat) && NoComma(img.id)
    && NoComma(img.name) && NoComma(img.diskFormat)
    && NoComma(img.flavor.id) && NoComma(img.flavor.name) && NoComma(img.flavor.osCloud)
  }

  lemma PluginTextsCommaFree(p: Plugin)
    ensures (forall c: PluginVar :: NoComma(PluginText(p, c))) <==> CommaFreePlugin(p)
  {
    assert NoComma(PluginText(p, TEMPEST_EXTERNAL_PLUGIN_GIT_URL)) <==> NoComma(p.repository);
    assert NoComma(PluginText(p, TEMPEST_EXTERNAL_PLUGIN_CHANGE_URL)) <==> NoComma(p.changeRepository);
    assert NoComma(PluginText(p, TEMPEST_EXTERNAL_PLUGIN_REFSPEC)) <==> NoComma(p.changeRefspec);
  }

  lemma ImageTextCommaFree(img: Image, c: ImageVar)
    requires CommaFreeImage(img)
    ensures NoComma(ImageText(img, c))
  {
    NumberReads(img.creationTimeout, "");
    NumberReads(img.flavor.ram, "-");
    NumberReads(img.flavor.disk, "-");
    NumberReads(img.flavor.vcpus, "-");
  }

  lemma CommaShows(img: Image) returns (c: ImageVar)
    requires !CommaFreeImage(img)
    ensures !NoComma(ImageText(img, c))
  {
    c := if !NoComma(img.url) then TEMPEST_EXTRA_IMAGES_URL
         else if !NoComma(img.osCloud) then TEMPEST_EXTRA_IMAGES_OS_CLOUD
         else if !NoComma(img.containerFormat) then TEMPEST_EXTRA_IMAGES_CONTAINER_FORMAT
         else if !NoComma(img.id) then TEMPEST_EXTRA_IMAGES_ID
         else if !NoComma(img.name) then TEMPEST_EXTRA_IMAGES_NAME
         else if !NoComma(img.diskFormat) then TEMPEST_EXTRA_IMAGES_DISK_FORMAT
         else if !NoComma(img.flavor.id) then TEMPEST_EXTRA_IMAGES_FLAVOR_ID
         else if !NoComma(img.flavor.name) then TEMPEST_EXTRA_IMAGES_FLAVOR_NAME
         else TEMPEST_EXTRA_IMAGES_FLAVOR_OS_CLOUD;
  }

  /** A list column of the generated variables. */
  lemma GeneratedList(spec: TempestSpec, name: string, step: int, v: Var)
    requires v.PluginColumn? || v.ImageColumn? || v == TEMPEST_EXTRA_RPMS
    ensures HaveColumn(ListRows(spec.run, v), v)
    ensures var column := ColumnOf(Generated(spec, name, step).env, v);
            && (column == Texts(ListRows(spec.run, v), v) <==> CommaFree(Texts(ListRows(spec.run, v), v)))
            && (|column| == |ListRows(spec.run, v)| <==> CommaFree(Texts(ListRows(spec.run, v), v)))
  {
    RowsFill(spec.run, v);
    GeneratedVar(spec, name, step, v);
    ColumnRoundTrip(Generated(spec, name, step).env, ListRows(spec.run, v), v);
  }

  function ListRows(run: TempestRun, v: Var): seq<map<Var, string>> {
    if v.PluginColumn? then PluginRows(run) else if v.ImageColumn? then ImageRows(run) else RpmRows(run)
  }

  lemma PluginTextsOf(run: TempestRun, c: PluginVar)
    requires HaveColumn(PluginRows(run), PluginColumn(c))
    ensures forall i | 0 <= i < |run.externalPlugin| ::
              Texts(PluginRows(run), PluginColumn(c))[i] == PluginText(run.externalPlugin[i], c)
    ensures CommaFree(Texts(PluginRows(run), PluginColumn(c)))
            <==> forall p | p in run.externalPlugin :: NoComma(PluginText(p, c))
  {
    var ts := Texts(PluginRows(run), PluginColumn(c));
    assert forall i | 0 <= i < |run.externalPlugin| :: ts[i] in ts && run.externalPlugin[i] in run.externalPlugin;
  }

  lemma ImageTextsOf(run: TempestRun, c: ImageVar)
    requires HaveColumn(ImageRows(run), ImageColumn(c))
    ensures forall i | 0 <= i < |run.extraImages| ::
              Texts(ImageRows(run), ImageColumn(c))[i] == ImageText(run.extraImages[i], c)
    ensures CommaFree(Texts(ImageRows(run), ImageColumn(c)))
            <==> forall img | img in run.extraImages :: NoComma(ImageText(img, c))
  {
    var ts := Texts(ImageRows(run), ImageColumn(c));
    assert forall i | 0 <= i < |run.extraImages| :: ts[i] in ts && run.extraImages[i] in run.extraImages;
  }

  lemma PluginColumnAligns(spec: TempestSpec, name: string, step: int, c: PluginVar)
    ensures |ColumnOf(Generated(spec, name, step).env, PluginColumn(c))| == |spec.run.externalPlugin|
            <==> forall p | p in spec.run.externalPlugin :: NoComma(PluginText(p, c))
  {
    GeneratedList(spec, name, step, PluginColumn(c));
    PluginTextsOf(spec.run, c);
  }

  lemma ImageColumnAligns(spec: TempestSpec, name: string, step: int, c: ImageVar)
    ensures |ColumnOf(Generated(spec, name, step).env, ImageColumn(c))| == |spec.run.extraImages|
            <==> forall img | img in spec.run.extraImages :: NoComma(ImageText(img, c))
  {
    GeneratedList(spec, name, step, ImageColumn(c));
    ImageTextsOf(spec.run, c);
  }

  ghost predicate PluginColumnsHave(env: map<Var, string>, n: nat) {
    forall c: PluginVar :: |ColumnOf(env, PluginColumn(c))| == n
  }

  ghost predicate ImageColumnsHave(env: map<Var, string>, n: nat) {
    forall c: ImageVar :: |ColumnOf(env, ImageColumn(c))| == n
  }

  /** Every plugin column has one entry per plugin exactly when no plugin has a comma in its texts. */
  lemma PluginColumnsAlign(spec: TempestSpec, name: string, step: int)
    ensures PluginColumnsHave(Generated(spec, name, step).env, |spec.run.externalPlugin|)
            <==> forall p | p in spec.run.externalPlugin :: CommaFreePlugin(p)
  {
    if p :| p in spec.run.externalPlugin && !CommaFreePlugin(p) {
      PluginTextsCommaFree(p);
      var c: PluginVar :| !NoComma(PluginText(p, c));
      PluginColumnAligns(spec, name, step, c);
    } else {
      forall c: PluginVar
        ensures |ColumnOf(Generated(spec, name, step).env, PluginColumn(c))| == |spec.run.externalPlugin|
      {
        forall p | p in spec.run.externalPlugin ensures NoComma(PluginText(p, c)) { PluginTextsCommaFree(p); }
        PluginColumnAligns(spec, name, step, c);
      }
    }
  }

  /** The same of the thirteen image columns. */
  lemma ImageColumnsAlign(spec: TempestSpec, name: string, step: int)
    ensures ImageColumnsHave(Generated(spec, name, step).env, |spec.run.extraImages|)
            <==> forall img | img in spec.run.extraImages :: CommaFreeImage(img)
  {
    if img :| img in spec.run.extraImages && !CommaFreeImage(img) {
      var c := CommaShows(img);
      ImageColumnAligns(spec, name, step, c);
    } else {
      forall c: ImageVar
        ensures |ColumnOf(Generated(spec, name, step).env, ImageColumn(c))| == |spec.run.extraImages|
      {
        forall img | img in spec.run.extraImages ensures NoComma(ImageText(img, c)) { ImageTextCommaFree(img, c); }
        ImageColumnAligns(spec, name, step, c);
      }
    }
  }

  /** A comma in a repository URL puts the columns out of step: one plugin, one refspec, but not one
      repository. */
  lemma CommaMisaligns(spec: TempestSpec, name: string, step: int)
    requires spec.run.externalPlugin == [Plugin("git:a,b", "", "")]
    ensures |ColumnOf(Generated(spec, name, step).env, PluginColumn(TEMPEST_EXTERNAL_PLUGIN_REFSPEC))| == 1
    ensures |ColumnOf(Generated(spec, name, step).env, PluginColumn(TEMPEST_EXTERNAL_PLUGIN_GIT_URL))| != 1
  {
    CommaInUrl(spec.run.externalPlugin[0]);
    assert spec.run.externalPlugin[0] in spec.run.externalPlugin;
    PluginColumnAligns(spec, name, step, TEMPEST_EXTERNAL_PLUGIN_REFSPEC);
    PluginColumnAligns(spec, name, step, TEMPEST_EXTERNAL_PLUGIN_GIT_URL);
  }

  lemma CommaInUrl(p: Plugin)
    requires p == Plugin("git:a,b", "", "")
    ensures NoComma(PluginText(p, TEMPEST_EXTERNAL_PLUGIN_REFSPEC))
    ensures !NoComma(PluginText(p, TEMPEST_EXTERNAL_PLUGIN_GIT_URL))
  {
    assert p.repository[5] == ',';
  }

  // ---- the round trip --------------------------------------------------------------------------

  ghost predicate CommaFreeLists(run: TempestRun) {
    && (forall p | p in run.externalPlugin :: CommaFreePlugin(p))
    && (forall img | img in run.extraImages :: CommaFreeImage(img))
    && CommaFree(run.extraRPMs)
  }

  ghost predicate PluginColumnIs(m: Maps, plugins: seq<Plugin>, c: PluginVar) {
    var column := ColumnOf(m.env, PluginColumn(c));
    |column| == |plugins| && forall i | 0 <= i < |column| :: column[i] == PluginText(plugins[i], c)
  }

  lemma PluginColumnReads(spec: TempestSpec, name: string, step: int, c: PluginVar)
    requires CommaFreeLists(spec.run)
    ensures PluginColumnIs(Generated(spec, name, step), spec.run.externalPlugin, c)
  {
    PluginListReads(spec, name, step, c);
    PluginTextsOf(spec.run, c);
  }

  lemma PluginListReads(spec: TempestSpec, name: string, step: int, c: PluginVar)
    requires CommaFreeLists(spec.run)
    ensures HaveColumn(PluginRows(spec.run), PluginColumn(c))
    ensures ColumnOf(Generated(spec, name, step).env, PluginColumn(c)) == Texts(PluginRows(spec.run), PluginColumn(c))
  {
    GeneratedList(spec, name, step, PluginColumn(c));
    PluginTextsOf(spec.run, c);
  }

  lemma PluginsRead(spec: TempestSpec, name: string, step: int)
    requires CommaFreeLists(spec.run)
    ensures ReadPlugins(Generated(spec, name, step)) == CanonRun(spec.run).externalPlugin
  {
    forall c ensures PluginColumnIs(Generated(spec, name, step), spec.run.externalPlugin, c) {
      PluginColumnReads(spec, name, step, c);
    }
    PluginsFromColumns(Generated(spec, name, step), spec.run);
  }

  lemma PluginsFromColumns(m: Maps, run: TempestRun)
    requires forall c :: PluginColumnIs(m, run.externalPlugin, c)
    ensures ReadPlugins(m) == CanonRun(run).externalPlugin
  {
    assert PluginColumnIs(m, run.externalPlugin, TEMPEST_EXTERNAL_PLUGIN_GIT_URL);
    assert PluginColumnIs(m, run.externalPlugin, TEMPEST_EXTERNAL_PLUGIN_CHANGE_URL);
    assert PluginColumnIs(m, run.externalPlugin, TEMPEST_EXTERNAL_PLUGIN_REFSPEC);
  }

  lemma ImageEntryReads(spec: TempestSpec, name: string, step: int, c: ImageVar, i: nat)
    requires CommaFreeLists(spec.run) && i < |spec.run.extraImages|
    ensures |ColumnOf(Generated(spec, name, step).env, ImageColumn(c))| == |spec.run.extraImages|
    ensures ImageEntry(Generated(spec, name, step), i, c) == ImageText(spec.run.extraImages[i], c)
  {
    GeneratedList(spec, name, step, ImageColumn(c));
    ImageTextsOf(spec.run, c);
    forall img | img in spec.run.extraImages
      ensures NoComma(ImageText(img, c))
    {
      ImageTextCommaFree(img, c);
    }
  }

  lemma EntryNumber(entry: ImageVar -> string, c: ImageVar, n: int, placeholder: string)
    requires entry(c) == Int64OrPlaceholder(n, placeholder) && (placeholder == "" || placeholder == "-")
    ensures ReadNumber(entry(c)) == Positive(n)
  {
    NumberReads(n, placeholder);
  }

  lemma ImageFromTexts(entry: ImageVar -> string, img: Image)
    requires forall c: ImageVar :: entry(c) == ImageText(img, c)
    ensures ImageFrom(entry) == CanonImage(img)
  {
    EntryNumber(entry, TEMPEST_EXTRA_IMAGES_CREATE_TIMEOUT, img.creationTimeout, "");
    FlavorFromTexts(entry, img);
    var read, canon := ImageFrom(entry), CanonImage(img);
    assert read.url == canon.url && read.osCloud == canon.osCloud && read.containerFormat == canon.containerFormat;
    assert read.id == canon.id && read.name == canon.name && read.diskFormat == canon.diskFormat;
  }

  lemma FlavorFromTexts(entry: ImageVar -> string, img: Image)
    requires forall c: ImageVar :: entry(c) == ImageText(img, c)
    ensures ImageFrom(entry).flavor == CanonImage(img).flavor
  {
    FlavorNumbers(entry, img);
    assert entry(TEMPEST_EXTRA_IMAGES_FLAVOR_ID) == img.flavor.id;
    assert entry(TEMPEST_EXTRA_IMAGES_FLAVOR_NAME) == img.flavor.name;
    assert entry(TEMPEST_EXTRA_IMAGES_FLAVOR_OS_CLOUD) == img.flavor.osCloud;
  }

  lemma FlavorNumbers(entry: ImageVar -> string, img: Image)
    requires forall c: ImageVar :: entry(c) == ImageText(img, c)
    ensures ReadNumber(entry(TEMPEST_EXTRA_IMAGES_FLAVOR_RAM)) == Positive(img.flavor.ram)
    ensures ReadNumber(entry(TEMPEST_EXTRA_IMAGES_FLAVOR_DISK)) == Positive(img.flavor.disk)
    ensures ReadNumber(entry(TEMPEST_EXTRA_IMAGES_FLAVOR_VCPUS)) == Positive(img.flavor.vcpus)
  {
    EntryNumber(entry, TEMPEST_EXTRA_IMAGES_FLAVOR_RAM, img.flavor.ram, "-");
    EntryNumber(entry, TEMPEST_EXTRA_IMAGES_FLAVOR_DISK, img.flavor.disk, "-");
    EntryNumber(entry, TEMPEST_EXTRA_IMAGES_FLAVOR_VCPUS, img.flavor.vcpus, "-");
  }

  lemma ImageReads(m: Maps, i: nat, img: Image)
    requires forall c: ImageVar :: ImageEntry(m, i, c) == ImageText(img, c)
    ensures ReadImage(m, i) == CanonImage(img)
  {
    ImageFromTexts(c => ImageEntry(m, i, c), img);
  }

  lemma GeneratedImageReads(spec: TempestSpec, name: string, step: int, i: nat)
    requires CommaFreeLists(spec.run) && i < |spec.run.extraImages|
    ensures ReadImage(Generated(spec, name, step), i) == CanonImage(spec.run.extraImages[i])
  {
    var m := Generated(spec, name, step);
    forall c: ImageVar ensures ImageEntry(m, i, c) == ImageText(spec.run.extraImages[i], c) {
      ImageEntryReads(spec, name, step, c, i);
    }
    ImageReads(m, i, spec.run.extraImages[i]);
  }

  lemma ImagesRead(spec: TempestSpec, name: string, step: int)
    requires CommaFreeLists(spec.run)
    ensures ReadImages(Generated(spec, name, step)) == CanonRun(spec.run).extraImages
  {
    var m := Generated(spec, name, step);
    ImageColumnsAlign(spec, name, step);
    assert |ColumnOf(m.env, ImageColumn(TEMPEST_EXTRA_IMAGES_URL))| == |spec.run.extraImages|;
    forall i | 0 <= i < |spec.run.extraImages| ensures ReadImage(m, i) == CanonImage(spec.run.extraImages[i]) {
      GeneratedImageReads(spec, name, step, i);
    }
    ImagesFromEach(m, spec.run);
  }

  lemma ImagesFromEach(m: Maps, run: TempestRun)
    requires |ColumnOf(m.env, ImageColumn(TEMPEST_EXTRA_IMAGES_URL))| == |run.extraImages|
    requires forall i: nat | i < |run.extraImages| :: ReadImage(m, i) == CanonImage(run.extraImages[i])
    ensures ReadImages(m) == CanonRun(run).extraImages
  {
  }

  lemma RpmsRead(spec: TempestSpec, name: string, step: int)
    requires CommaFreeLists(spec.run)
    ensures ColumnOf(Generated(spec, name, step).env, TEMPEST_EXTRA_RPMS) == spec.run.extraRPMs
  {
    GeneratedList(spec, name, step, TEMPEST_EXTRA_RPMS);
    assert Texts(RpmRows(spec.run), TEMPEST_EXTRA_RPMS) == spec.run.extraRPMs;
  }

  lemma PathReads(m: Maps, f: FileVar)
    requires Lookup(m.env, File(f)) == Some(BASE_DIR + FileName(f))
    ensures ReadFile(m, f) == Get(m.files, FileName(f))
  {
    assert (BASE_DIR + FileName(f))[|BASE_DIR|..] == FileName(f);
  }

  /** Every file variable that is set names its own file. */
  ghost predicate PathsAreOwn(m: Maps) {
    forall f | File(f) in m.env :: m.env[File(f)] == BASE_DIR + FileName(f)
  }

  /** Setting a file keeps that, makes the file read back as its content, and changes no other file. */
  lemma PutFileReadsBack(m: Maps, content: string, f: FileVar, g: FileVar)
    requires PathsAreOwn(m)
    ensures PathsAreOwn(PutFile(m, content, f))
    ensures ReadFile(PutFile(m, content, f), f) == if content == "" then ReadFile(m, f) else content
    ensures g != f ==> ReadFile(PutFile(m, content, f), g) == ReadFile(m, g)
  {
    var w := PutFile(m, content, f);
    FileNamesDiffer(f);
    FileNamesDiffer(g);
    if File(f) in w.env { PathReads(w, f); }
    if File(g) in m.env {
      PathReads(m, g);
      PathReads(w, g);
    }
  }

  lemma FileReads(spec: TempestSpec, name: string, step: int, f: FileVar)
    requires FileName(f) !in spec.configOverwrite
    ensures ReadFile(Generated(spec, name, step), f) == Content(spec, f)
  {
    var m := Generated(spec, name, step);
    FileVarsNameFiles(spec, name, step, f);
    if File(f) in m.env { PathReads(m, f); }
  }

  lemma FlagsRead(spec: TempestSpec, name: string, step: int, v: Var)
    ensures var m := Generated(spec, name, step);
            && (v.RunFlag? ==> ReadFlag(m, v) == RunFlagValue(spec.run, v.runFlag))
            && (v.ConfFlag? ==> ReadFlag(m, v) == ConfFlagValue(spec.conf, v.confFlag))
            && (v.ConfText? ==> Get(m.env, v) == ConfTextValue(spec.conf, v.confText))
  {
    GeneratedVar(spec, name, step, v);
  }

  lemma NumbersRead(spec: TempestSpec, name: string, step: int, v: Var)
    requires v.ConfNumber? || v == TEMPEST_CONCURRENCY
    ensures ReadNumber(Get(Generated(spec, name, step).env, v))
            == Positive(if v.ConfNumber? then ConfNumberValue(spec.conf, v.confNumber) else spec.run.concurrency)
  {
    GeneratedVar(spec, name, step, v);
    if v.ConfNumber? {
      NumberReads(ConfNumberValue(spec.conf, v.confNumber), "");
    } else {
      NumberReads(spec.run.concurrency, "");
    }
  }

  ghost predicate FilesRead(m: Maps, spec: TempestSpec) {
    forall f: FileVar :: ReadFile(m, f) == Content(spec, f)
  }

  lemma AllFilesRead(spec: TempestSpec, name: string, step: int)
    requires forall f: FileVar :: FileName(f) !in spec.configOverwrite
    ensures FilesRead(Generated(spec, name, step), spec)
  {
    forall f: FileVar ensures ReadFile(Generated(spec, name, step), f) == Content(spec, f) {
      FileReads(spec, name, step, f);
    }
  }

  /** The pod gets back all of `tempestRun`, up to what the placeholders identify. */
  lemma RunRoundTrip(spec: TempestSpec, name: string, step: int)
    requires CommaFreeLists(spec.run)
    requires forall f: FileVar :: FileName(f) !in spec.configOverwrite
    ensures ReadRun(Generated(spec, name, step)) == CanonRun(spec.run)
  {
    AllFilesRead(spec, name, step);
    FlagsRead(spec, name, step, RunFlag(TEMPEST_SERIAL));
    FlagsRead(spec, name, step, RunFlag(TEMPEST_PARALLEL));
    FlagsRead(spec, name, step, RunFlag(TEMPEST_SMOKE));
    NumbersRead(spec, name, step, TEMPEST_CONCURRENCY);
    PluginsRead(spec, name, step);
    ImagesRead(spec, name, step);
    RpmsRead(spec, name, step);
    RunParts(Generated(spec, name, step), spec);
  }

  lemma RunParts(m: Maps, spec: TempestSpec)
    requires FilesRead(m, spec)
    requires ReadFlag(m, RunFlag(TEMPEST_SERIAL)) == spec.run.serial
    requires ReadFlag(m, RunFlag(TEMPEST_PARALLEL)) == spec.run.parallel
    requires ReadFlag(m, RunFlag(TEMPEST_SMOKE)) == spec.run.smoke
    requires ReadNumber(Get(m.env, TEMPEST_CONCURRENCY)) == Positive(spec.run.concurrency)
    requires ReadPlugins(m) == CanonRun(spec.run).externalPlugin && ReadImages(m) == CanonRun(spec.run).extraImages
    requires ColumnOf(m.env, TEMPEST_EXTRA_RPMS) == spec.run.extraRPMs
    ensures ReadRun(m) == CanonRun(spec.run)
  {
    assert ReadFile(m, TEMPEST_WORKER_FILE) == spec.run.workerFile;
    assert ReadFile(m, TEMPEST_INCLUDE_LIST) == spec.run.includeList;
    assert ReadFile(m, TEMPEST_EXCLUDE_LIST) == spec.run.excludeList;
    assert ReadFile(m, TEMPEST_EXPECTED_FAILURES_LIST) == spec.run.expectedFailuresList;
  }

  /** And all of `tempestconfRun`. */
  lemma ConfRoundTrip(spec: TempestSpec, name: string, step: int)
    requires forall f: FileVar :: FileName(f) !in spec.configOverwrite
    ensures ReadConf(Generated(spec, name, step)) == CanonConf(spec.conf)
  {
    AllFilesRead(spec, name, step);
    var m := Generated(spec, name, step);
    forall v: ConfFlagVar ensures ReadFlag(m, ConfFlag(v)) == ConfFlagValue(spec.conf, v) {
      FlagsRead(spec, name, step, ConfFlag(v));
    }
    forall v: ConfTextVar ensures Get(m.env, ConfText(v)) == ConfTextValue(spec.conf, v) {
      FlagsRead(spec, name, step, ConfText(v));
    }
    forall v: ConfNumberVar ensures ReadNumber(Get(m.env, ConfNumber(v))) == Positive(ConfNumberValue(spec.conf, v)) {
      NumbersRead(spec, name, step, ConfNumber(v));
    }
    ConfFromParts(f => ReadFile(m, f), v => ReadFlag(m, ConfFlag(v)), v => ReadNumber(Get(m.env, ConfNumber(v))),
                  v => Get(m.env, ConfText(v)), spec);
  }

  lemma ConfFromParts(file: FileVar -> string, flag: ConfFlagVar -> bool, number: ConfNumberVar -> nat,
                      text: ConfTextVar -> string, spec: TempestSpec)
    requires forall f: FileVar :: file(f) == Content(spec, f)
    requires forall v: ConfFlagVar :: flag(v) == ConfFlagValue(spec.conf, v)
    requires forall v: ConfNumberVar :: number(v) == Positive(ConfNumberValue(spec.conf, v))
    requires forall v: ConfTextVar :: text(v) == ConfTextValue(spec.conf, v)
    ensures ConfFrom(file, flag, number, text) == CanonConf(spec.conf)
  {
  }

  lemma ServiceVarIs(spec: TempestSpec, name: string, step: int, s: ServiceVar)
    ensures Get(Generated(spec, name, step).env, Service(s)) == ServiceText(spec, s)
  {
    GeneratedVar(spec, name, step, Service(s));
  }

  lemma StepDirIs(spec: TempestSpec, name: string, step: int)
    ensures Get(Generated(spec, name, step).env, TEMPEST_WORKFLOW_STEP_DIR_NAME)
            == PodNames.GetPodName(name, spec.stepNames, step)
  {
    GeneratedVar(spec, name, step, TEMPEST_WORKFLOW_STEP_DIR_NAME);
    DirIsWritten(spec, PodNames.GetPodName(name, spec.stepNames, step));
  }

  lemma DirIsWritten(spec: TempestSpec, dir: string)
    ensures ConfWrites(spec.conf, TEMPEST_WORKFLOW_STEP_DIR_NAME,
                       RunWrites(spec.run, dir, TEMPEST_WORKFLOW_STEP_DIR_NAME, None)) == Some(dir)
  {
  }

  /** The settings that the service variables carry, read from `m`. */
  ghost predicate ServiceRead(m: Maps, spec: TempestSpec) {
    && ReadFlag(m, Service(TEMPEST_DEBUG_MODE)) == spec.debug
    && ReadFlag(m, Service(TEMPEST_CLEANUP)) == spec.cleanup
    && ReadFlag(m, Service(TEMPEST_RERUN_FAILED_TESTS)) == spec.rerunFailedTests
    && ReadFlag(m, Service(TEMPEST_RERUN_OVERRIDE_STATUS)) == spec.rerunOverrideStatus
    && Get(m.env, Service(TEMPEST_TIMING_DATA_URL)) == spec.timingDataUrl
  }

  lemma ServiceTextsRead(m: Maps, spec: TempestSpec)
    requires forall s :: Get(m.env, Service(s)) == ServiceText(spec, s)
    ensures ServiceRead(m, spec)
  {
  }

  /** The rest of the spec, and the directory name, which is the pod's name. */
  lemma ServiceRoundTrip(spec: TempestSpec, name: string, step: int)
    ensures ServiceRead(Generated(spec, name, step), spec)
    ensures Get(Generated(spec, name, step).env, TEMPEST_WORKFLOW_STEP_DIR_NAME)
            == PodNames.GetPodName(name, spec.stepNames, step)
  {
    forall s ensures Get(Generated(spec, name, step).env, Service(s)) == ServiceText(spec, s) {
      ServiceVarIs(spec, name, step, s);
    }
    ServiceTextsRead(Generated(spec, name, step), spec);
    StepDirIs(spec, name, step);
  }
}
