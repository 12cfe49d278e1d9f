/** The per-artifact step `PostProcess` (ovftool/post-processor.go): the
    builder-id gate, the choice of the VMX descriptor, drive stripping, the
    output-path expansion and the `ovftool` argument vector. The file
    system, the template engine and the child process are reached through
    a `Host` record of functions; what the step does to them is recorded
    as a sequence of effects. */
module PostProcessor {
  import opened Results
  import opened Text
  import opened OvfConfig
  import opened Vmx

  const VmwareBuilderId: string := "mitchellh.vmware"
  const Provider: string := "vmware"
  const VmxSuffix: string := ".vmx"
  const TargetTypeFlag: string := "--targetType="
  const AcceptEulasFlag: string := "--acceptAllEulas"
  const CompressFlag: string := "--compress="

  /** The read-only view of a build artifact. */
  datatype Artifact = Artifact(builderId: string, files: seq<string>, id: string)

  /** The values the target-path template is expanded against. */
  datatype OutputPathTemplate = OutputPathTemplate(artifactId: string, buildName: string, provider: string)

  /** The outcome of running the tool: whether it succeeded, and its
      standard output and standard error captured into one buffer. */
  datatype ToolRun = ToolRun(succeeded: bool, output: string)

  /** The collaborators `PostProcess` calls: reading and writing a VMX file
      (`None` / `false` is an I/O failure), expanding a template (`None` is
      an expansion error), and running a program with arguments. */
  datatype Host = Host(
    readVmx: string -> Option<Descriptor>,
    writeVmx: (string, Descriptor) -> bool,
    processTemplate: (string, OutputPathTemplate) -> Option<string>,
    runTool: (string, seq<string>) -> ToolRun)

  /** What `PostProcess` does to the world, in order. */
  datatype Effect =
    | ReadVmx(path: string)
    | WriteVmx(path: string, data: Descriptor)
    | RunTool(program: string, args: seq<string>)

  datatype PostProcessError =
    | WrongBuilder(builderId: string)
    | VmxNotFound
    | StripFailed
    | TemplateFailed
    | ToolFailed(output: string)

  /** The effects performed and the value returned: on success the input
      artifact and the `keep` flag. */
  datatype Run = Run(effects: seq<Effect>, result: Result<(Artifact, bool), PostProcessError>)

  /** The parameters of one `ovftool` call. */
  datatype Invocation = Invocation(targetType: string, compression: nat, source: string, target: string)

  predicate IsVmx(path: string) {
    HasSuffix(path, VmxSuffix)
  }

  /** `path` is the last element of `files` that names a VMX file. */
  ghost predicate IsLastVmx(files: seq<string>, path: string) {
    exists i :: 0 <= i < |files| && files[i] == path && IsVmx(path)
      && forall j :: i < j < |files| ==> !IsVmx(files[j])
  }

  predicate NoVmx(files: seq<string>) {
    forall i :: 0 <= i < |files| ==> !IsVmx(files[i])
  }

  /** The position of the last VMX file, if there is one. */
  function LastVmxIndex(files: seq<string>): (r: Option<nat>)
    ensures r.None? <==> NoVmx(files)
    ensures r.Some? ==> r.value < |files| && IsVmx(files[r.value])
    ensures r.Some? ==> forall j :: r.value < j < |files| ==> !IsVmx(files[j])
  {
    if |files| == 0 then None
    else if IsVmx(files[|files| - 1]) then Some(|files| - 1)
    else LastVmxIndex(files[..|files| - 1])
  }

  /** The chosen descriptor path, with `""` for "none", as the source's
      `vmx` variable holds it after the loop. */
  function SelectedVmx(files: seq<string>): string {
    match LastVmxIndex(files)
    case Some(i) => files[i]
    case None => ""
  }

  /** The empty string never names a VMX file, so `""` is an unambiguous
      "not found" and otherwise the selection is the last match. */
  lemma SelectedVmxIsLastMatch(files: seq<string>)
    ensures SelectedVmx(files) == "" <==> NoVmx(files)
    ensures SelectedVmx(files) != "" ==> IsLastVmx(files, SelectedVmx(files))
  {
  }

  /** One more file either replaces the selection (when it is a VMX file) or
      leaves it as it was. */
  lemma SelectedVmxSnoc(files: seq<string>, i: nat)
    requires i < |files|
    ensures SelectedVmx(files[..i + 1])
      == if IsVmx(files[i]) then files[i] else SelectedVmx(files[..i])
  {
    assert files[..i + 1][..i] == files[..i];
  }

  /** The source's loop over `artifact.Files()`: every VMX path overwrites
      the previous choice. */
  method SelectVmx(files: seq<string>) returns (vmx: string)
    ensures vmx == SelectedVmx(files)
    ensures vmx == "" <==> NoVmx(files)
    ensures vmx != "" ==> IsLastVmx(files, vmx)
  {
    vmx := "";
    var i := 0;
    while i < |files|
      invariant 0 <= i <= |files|
      invariant vmx == SelectedVmx(files[..i])
    {
      SelectedVmxSnoc(files, i);
      if IsVmx(files[i]) {
        vmx := files[i];
      }
      i := i + 1;
    }
    assert files[..i] == files;
    SelectedVmxIsLastMatch(files);
  }

  /** The argument vector handed to `ovftool`. */
  function BuildArgs(inv: Invocation): (args: seq<string>)
    ensures |args| == if inv.compression > 0 then 5 else 4
    ensures args[0] == TargetTypeFlag + inv.targetType
    ensures args[1] == AcceptEulasFlag
    ensures inv.compression > 0 ==> args[2] == CompressFlag + Decimal(inv.compression)
    ensures args[|args| - 2] == inv.source && args[|args| - 1] == inv.target
  {
    var compress := if inv.compression > 0 then [CompressFlag + Decimal(inv.compression)] else [];
    [TargetTypeFlag + inv.targetType, AcceptEulasFlag] + compress + [inv.source, inv.target]
  }

  /** Reads an argument vector in the grammar `BuildArgs` writes:
      `--targetType=T --acceptAllEulas [--compress=N] SOURCE TARGET`, where a
      compression flag must carry a positive level. */
  function ParseArgs(args: seq<string>): Option<Invocation> {
    if !(|args| == 4 || |args| == 5) then None
    else if !HasPrefix(args[0], TargetTypeFlag) || args[1] != AcceptEulasFlag then None
    else
      var targetType := args[0][|TargetTypeFlag|..];
      if |args| == 4 then Some(Invocation(targetType, 0, args[2], args[3]))
      else if !HasPrefix(args[2], CompressFlag) then None
      else match ParseDecimal(args[2][|CompressFlag|..])
        case None => None
        case Some(level) =>
          if level == 0 then None else Some(Invocation(targetType, level, args[3], args[4]))
  }

  /** The argument vector determines the invocation it was built from. */
  lemma {:induction false} ArgsRoundTrip(inv: Invocation)
    ensures ParseArgs(BuildArgs(inv)) == Some(inv)
  {
    var args := BuildArgs(inv);
    PrefixOfConcat(TargetTypeFlag, inv.targetType);
    if inv.compression > 0 {
      PrefixOfConcat(CompressFlag, Decimal(inv.compression));
      DecimalRoundTrip(inv.compression);
    }
  }

  /** Example: an `ova` target at compression level 5 gets the type flag, the
      EULA flag, `--compress=5`, then the descriptor and the target path. */
  lemma BuildArgsExample()
    ensures BuildArgs(Invocation("ova", 5, "build/machine.vmx", "packer_demo_vmware.ova"))
      == ["--targetType=ova", "--acceptAllEulas", "--compress=5",
          "build/machine.vmx", "packer_demo_vmware.ova"]
  {
    assert Decimal(5) == "5";
    assert CompressFlag + "5" == "--compress=5";
    assert TargetTypeFlag + "ova" == "--targetType=ova";
  }

  /** `stripDrives`: read the descriptor, strip it, write it back. The
      result says whether both the read and the write succeeded. */
  function StripDrivesFile(vmx: string, host: Host): (r: (seq<Effect>, bool))
    ensures |r.0| > 0 && r.0[0] == ReadVmx(vmx)
    ensures host.readVmx(vmx).None? ==> r == ([ReadVmx(vmx)], false)
    ensures host.readVmx(vmx).Some? ==>
      |r.0| == 2 && r.0[1].WriteVmx? && r.0[1].path == vmx
      && r.0[1].data == StripDrives(host.readVmx(vmx).value)
      && r.1 == host.writeVmx(vmx, r.0[1].data)
  {
    match host.readVmx(vmx)
    case None => ([ReadVmx(vmx)], false)
    case Some(data) =>
      var stripped := StripDrives(data);
      ([ReadVmx(vmx), WriteVmx(vmx, stripped)], host.writeVmx(vmx, stripped))
  }

  function TargetPathFor(cfg: Config, artifact: Artifact, host: Host): Option<string> {
    host.processTemplate(cfg.targetPath, OutputPathTemplate(artifact.id, cfg.buildName, Provider))
  }

  /** Every step before the tool call succeeds: the builder matches, a
      `.vmx` file exists, its descriptor is read and written back stripped,
      and the target path expands. */
  predicate ReachesTool(cfg: Config, artifact: Artifact, host: Host) {
    && artifact.builderId == VmwareBuilderId
    && !NoVmx(artifact.files)
    && var vmx := SelectedVmx(artifact.files);
    && host.readVmx(vmx).Some?
    && host.writeVmx(vmx, StripDrives(host.readVmx(vmx).value))
    && TargetPathFor(cfg, artifact, host).Some?
  }

  /** Processes one artifact with a configuration that `Configure` accepted. */
  function PostProcess(cfg: Config, artifact: Artifact, host: Host): (r: Run)
    ensures r.result.Ok? ==> r.result.value == (artifact, false)
    ensures artifact.builderId != VmwareBuilderId ==>
      r == Run([], Err(WrongBuilder(artifact.builderId)))
    ensures artifact.builderId == VmwareBuilderId && NoVmx(artifact.files) ==>
      r == Run([], Err(VmxNotFound))
    ensures |r.effects| > 0 ==>
      r.effects[0].ReadVmx? && IsLastVmx(artifact.files, r.effects[0].path)
    ensures artifact.builderId == VmwareBuilderId && !NoVmx(artifact.files) ==> |r.effects| > 0
    ensures |r.effects| > 0 && host.readVmx(r.effects[0].path).Some? ==> |r.effects| > 1
    ensures |r.effects| > 0 && host.readVmx(r.effects[0].path).None? ==>
      r.effects == [r.effects[0]] && r.result == Err(StripFailed)
    ensures |r.effects| > 1 ==>
      && r.effects[1].WriteVmx? && r.effects[1].path == r.effects[0].path
      && host.readVmx(r.effects[0].path).Some?
      && r.effects[1].data == StripDrives(host.readVmx(r.effects[0].path).value)
      && Stripped(r.effects[1].data)
    ensures |r.effects| > 1 && !host.writeVmx(r.effects[1].path, r.effects[1].data) ==>
      |r.effects| == 2 && r.result == Err(StripFailed)
    ensures (&& |r.effects| > 1
             && host.writeVmx(r.effects[1].path, r.effects[1].data)
             && TargetPathFor(cfg, artifact, host).None?) ==>
      |r.effects| == 2 && r.result == Err(TemplateFailed)
    ensures ReachesTool(cfg, artifact, host) <==> |r.effects| == 3
    ensures |r.effects| > 2 ==>
      && |r.effects| == 3
      && host.writeVmx(r.effects[1].path, r.effects[1].data)
      && TargetPathFor(cfg, artifact, host).Some?
      && r.effects[2] == RunTool("ovftool", BuildArgs(Invocation(
           cfg.targetType, cfg.compression, r.effects[0].path,
           TargetPathFor(cfg, artifact, host).value)))
    ensures |r.effects| == 3 ==>
      var run := host.runTool(Executable, r.effects[2].args);
      r.result == if run.succeeded then Ok((artifact, false)) else Err(ToolFailed(run.output))
  {
    if artifact.builderId != VmwareBuilderId then Run([], Err(WrongBuilder(artifact.builderId)))
    else
      var vmx := SelectedVmx(artifact.files);
      SelectedVmxIsLastMatch(artifact.files);
      if vmx == "" then Run([], Err(VmxNotFound))
      else
        var (stripEffects, stripped) := StripDrivesFile(vmx, host);
        if !stripped then Run(stripEffects, Err(StripFailed))
        else
          match TargetPathFor(cfg, artifact, host)
          case None => Run(stripEffects, Err(TemplateFailed))
          case Some(target) =>
            var inv := Invocation(cfg.targetType, cfg.compression, vmx, target);
            var args := BuildArgs(inv);
            ArgsRoundTrip(inv);
            var run := host.runTool(Executable, args);
            var effects := stripEffects + [RunTool(Executable, args)];
            if !run.succeeded then Run(effects, Err(ToolFailed(run.output)))
            else Run(effects, Ok((artifact, false)))
  }

  /** The tool runs, and the artifact is handed back, exactly when every
      step before it succeeded. */
  lemma PostProcessSucceedsIff(cfg: Config, artifact: Artifact, host: Host)
    ensures PostProcess(cfg, artifact, host).result.Ok? <==>
      && artifact.builderId == VmwareBuilderId
      && !NoVmx(artifact.files)
      && var vmx := SelectedVmx(artifact.files);
      && host.readVmx(vmx).Some?
      && host.writeVmx(vmx, StripDrives(host.readVmx(vmx).value))
      && var path := host.processTemplate(cfg.targetPath,
           OutputPathTemplate(artifact.id, cfg.buildName, Provider));
      && path.Some?
      && host.runTool(Executable,
           BuildArgs(Invocation(cfg.targetType, cfg.compression, vmx, path.value))).succeeded
  {
  }

  /** With a configuration `Configure` accepted, every tool call uses one of
      the two container types and, when compressing, a level from 1 to 9. */
  lemma ConfiguredRunStaysInToolGrammar(
    raw: Config, lookPathOk: bool, templateOk: string -> bool, artifact: Artifact, host: Host)
    requires Configure(raw, lookPathOk, templateOk).Ok?
    ensures var r := PostProcess(Configure(raw, lookPathOk, templateOk).value, artifact, host);
      |r.effects| > 2 ==>
        && ParseArgs(r.effects[2].args).Some?
        && var inv := ParseArgs(r.effects[2].args).value;
        && (inv.targetType == "ovf" || inv.targetType == "ova")
        && inv.compression <= 9
        && (inv.compression > 0 <==> |r.effects[2].args| == 5)
  {
  }

  /** Example: from a disk image followed by a descriptor, the descriptor is
      chosen. */
  lemma SelectVmxExample()
    ensures SelectedVmx(["build/disk.vmdk", "build/machine.vmx"]) == "build/machine.vmx"
  {
  }
}
