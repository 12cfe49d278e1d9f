/** The post-processor's configuration: defaulting of the target type and
    target path, then four independent checks whose failures are collected
    into one aggregate error (ovftool/post-processor.go, `Configure`). */
module OvfConfig {
  import opened Results
  import opened Text

  /** The decoded user configuration. `buildName` is the build name that the
      framework's common settings carry; `compression` is a Go `uint`, so it
      is never negative. */
  datatype Config = Config(
    buildName: string,
    targetPath: string,
    targetType: string,
    compression: nat)

  /** One reason per failed check, in the order the checks run. */
  datatype ConfigError =
    | ExecutableNotFound
    | InvalidTemplate
    | InvalidTargetType
    | InvalidCompression

  /** The external tool looked up on the search path. */
  const Executable: string := "ovftool"

  const DefaultTargetType: string := "ovf"
  const DefaultTargetPath: string := "packer_{{ .BuildName }}_{{.Provider}}"
  const OvaSuffix: string := ".ova"
  const MaxCompression: nat := 9

  predicate IsTargetType(t: string) {
    t == "ovf" || t == "ova"
  }

  /** The position of each check in the order `Configure` runs them. */
  function Rank(e: ConfigError): nat {
    match e
    case ExecutableNotFound => 0
    case InvalidTemplate => 1
    case InvalidTargetType => 2
    case InvalidCompression => 3
  }

  /** The default path is chosen after the type has been defaulted, so the
      `.ova` suffix follows the resolved type. */
  function DefaultPath(path: string, resolvedType: string): (r: string)
    ensures r != ""
    ensures path != "" ==> r == path
    ensures path == "" ==> HasPrefix(r, DefaultTargetPath)
    ensures path == "" ==> (HasSuffix(r, OvaSuffix) <==> resolvedType == "ova")
    ensures path == "" && resolvedType == "ova" ==> r == "packer_{{ .BuildName }}_{{.Provider}}.ova"
    ensures path == "" && resolvedType != "ova" ==> r == "packer_{{ .BuildName }}_{{.Provider}}"
  {
    if path != "" then path
    else if resolvedType == "ova" then DefaultTargetPath + OvaSuffix
    else DefaultTargetPath
  }

  function ApplyDefaults(c: Config): (d: Config)
    ensures d.buildName == c.buildName && d.compression == c.compression
    ensures d.targetType != ""
    ensures c.targetType != "" ==> d.targetType == c.targetType
    ensures c.targetType == "" ==> d.targetType == "ovf"
    ensures d.targetPath != ""
    ensures c.targetPath != "" ==> d.targetPath == c.targetPath
    ensures c.targetPath == "" ==> HasPrefix(d.targetPath, DefaultTargetPath)
    ensures c.targetPath == "" ==> (HasSuffix(d.targetPath, ".ova") <==> d.targetType == "ova")
    ensures c.targetPath == "" ==>
      d.targetPath == DefaultTargetPath + (if d.targetType == "ova" then OvaSuffix else "")
  {
    var t := if c.targetType == "" then DefaultTargetType else c.targetType;
    c.(targetType := t, targetPath := DefaultPath(c.targetPath, t))
  }

  /** Appends `e` when `failed`, as `packer.MultiErrorAppend` does. */
  function Collect(errs: seq<ConfigError>, failed: bool, e: ConfigError): seq<ConfigError> {
    if failed then errs + [e] else errs
  }

  /** The failures of the four checks on an already-defaulted configuration. */
  function Checks(d: Config, lookPathOk: bool, templateOk: string -> bool): seq<ConfigError> {
    var errs := Collect([], !lookPathOk, ExecutableNotFound);
    var errs := Collect(errs, !templateOk(d.targetPath), InvalidTemplate);
    var errs := Collect(errs, !IsTargetType(d.targetType), InvalidTargetType);
    Collect(errs, !(d.compression <= MaxCompression), InvalidCompression)
  }

  /** The configuration invariant the rest of the post-processor relies on. */
  predicate Valid(c: Config) {
    && IsTargetType(c.targetType)
    && c.compression <= MaxCompression
    && c.targetPath != ""
  }

  /** `lookPathOk` stands for `exec.LookPath("ovftool")` succeeding and
      `templateOk` for the template engine accepting a path template. */
  function Configure(c: Config, lookPathOk: bool, templateOk: string -> bool)
    : (r: Result<Config, seq<ConfigError>>)
    ensures r.Ok? ==> r.value == ApplyDefaults(c)
    ensures r.Ok? ==> Valid(r.value)
    ensures r.Err? ==> |r.error| > 0
    ensures r.Ok? <==>
      (lookPathOk && templateOk(ApplyDefaults(c).targetPath)
       && IsTargetType(ApplyDefaults(c).targetType) && c.compression <= 9)
  {
    var d := ApplyDefaults(c);
    var errs := Checks(d, lookPathOk, templateOk);
    if |errs| > 0 then Err(errs) else Ok(d)
  }

  /** Every failing check contributes its reason, no passing check does, and
      the reasons appear once each in check order. */
  lemma ConfigureReportsEveryFailure(c: Config, lookPathOk: bool, templateOk: string -> bool)
    requires Configure(c, lookPathOk, templateOk).Err?
    ensures var errs := Configure(c, lookPathOk, templateOk).error;
      && (ExecutableNotFound in errs <==> !lookPathOk)
      && (InvalidTemplate in errs <==> !templateOk(ApplyDefaults(c).targetPath))
      && (InvalidTargetType in errs <==> !IsTargetType(ApplyDefaults(c).targetType))
      && (InvalidCompression in errs <==> c.compression > 9)
      && (forall i, j :: 0 <= i < j < |errs| ==> Rank(errs[i]) < Rank(errs[j]))
  {
  }

  /** A configuration with both a bad type and a bad compression level is
      reported for both, in check order, whatever its target path. */
  lemma BadTypeAndCompressionBothReported(buildName: string, path: string)
    ensures Configure(Config(buildName, path, "zip", 12), true, (p: string) => true)
      == Err([InvalidTargetType, InvalidCompression])
  {
    var d := ApplyDefaults(Config(buildName, path, "zip", 12));
    assert d.targetType == "zip" && !IsTargetType(d.targetType);
    assert Checks(d, true, (p: string) => true) == [InvalidTargetType, InvalidCompression];
  }

  /** An unset type with an unset path resolves to the plain `ovf` template. */
  lemma UnsetTypeAndPathDefaults(buildName: string, compression: nat)
    ensures ApplyDefaults(Config(buildName, "", "", compression)).targetType == "ovf"
    ensures ApplyDefaults(Config(buildName, "", "", compression)).targetPath
      == "packer_{{ .BuildName }}_{{.Provider}}"
  {
  }

  /** An unset path with type `ova` gets the template with `.ova` appended. */
  lemma OvaTypeGetsOvaPath(buildName: string, compression: nat)
    ensures ApplyDefaults(Config(buildName, "", "ova", compression)).targetPath
      == "packer_{{ .BuildName }}_{{.Provider}}.ova"
  {
  }

  /** Defaulting an already-defaulted configuration changes nothing. */
  lemma ApplyDefaultsIdempotent(c: Config)
    ensures ApplyDefaults(ApplyDefaults(c)) == ApplyDefaults(c)
  {
  }
}
