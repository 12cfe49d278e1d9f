# ovftool post-processor — verified model

A Dafny model of the core of a packer post-processor that converts a VMware
build artifact into an OVF or OVA appliance by calling VMware's `ovftool`.
The core lives in `ovftool/post-processor.go` and has three parts:

- **Configuration** (`Configure`): the target type defaults to `ovf`; an
  unset target path defaults to `packer_{{ .BuildName }}_{{.Provider}}`,
  with `.ova` appended exactly when the resolved type is `ova`. Then four
  independent checks run: `ovftool` is on the search path, the path template
  is valid, the type is `ovf` or `ova`, and the compression level is at most 9.
  Every failure is collected into one aggregate error, in that order
  (module `OvfConfig`, file `config.dfy`).
- **Drive stripping** (`stripDrives`): every VMX key starting with `floppy0.`
  or `ide1:0.file` is deleted. Then `floppy0.present` and `ide1:0.present`
  are set to `FALSE` (module `Vmx`, file `vmx.dfy`). The Go loop deletes keys
  while ranging over the map in an unspecified order. `Vmx.StripDrivesInPlace`
  models that loop with an arbitrary visiting order. It proves the loop equal
  to the map comprehension `Vmx.StripDrives`.
- **Post-processing** (`PostProcess`): artifacts from builders other than
  `mitchellh.vmware` are rejected. The last file ending in `.vmx` is chosen as
  the descriptor, and its drives are stripped. The target path is expanded,
  and `ovftool` is run with
  `--targetType=T --acceptAllEulas [--compress=N] VMX TARGET`. On success the
  input artifact comes back with `keep = false` (module `PostProcessor`, file
  `postprocess.dfy`).

The outside world is passed in as parameters:
- `exec.LookPath` is the boolean `lookPathOk`.
- The template engine's `Validate` is the function `templateOk`.
- The VMX reader and writer, the template engine's `Process` and the child
  process are the function fields of a `Host` record.

`PostProcess` returns the list of effects it performed (`ReadVmx`, `WriteVmx`,
`RunTool`) together with its result. "Nothing is written and nothing is
executed" is therefore a statement about that list. Helper modules: `Results`
(`Option`, `Result`) and `Text` (Go's `HasPrefix`/`HasSuffix`, the `%d`
rendering of an unsigned integer, and a decimal reader that inverts it).

Details of the source that the model keeps:
- The selection loop keeps the last `.vmx` path; it does not require exactly one.
- The default path template is spelled `packer_{{ .BuildName }}_{{.Provider}}`,
  with a space inside the first placeholder.
- The template check at configuration time is a syntax check of the defaulted path (`Validate`), not an expansion.

As written, `stripDrives` (ovftool/post-processor.go:86-104) has no `return`
after its final `if`. Go rejects a function that can reach its end without a
result. The model gives it the evidently intended behaviour: it succeeds
once the write succeeds (`PostProcessor.StripDrivesFile`).

## Model

| member | source | states |
|---|---|---|
| OvfConfig.ApplyDefaults | ovftool/post-processor.go:45-54 | an empty type becomes `ovf` and a non-empty one is kept; a given path is kept; an empty path becomes exactly `packer_{{ .BuildName }}_{{.Provider}}`, with `.ova` appended exactly when the resolved type is `ova`; the path is never empty afterwards; build name and compression are untouched |
| OvfConfig.UnsetTypeAndPathDefaults | ovftool/post-processor.go:45-54 | an unset type and an unset path resolve to `ovf` and the bare template, with no `.ova` suffix |
| OvfConfig.OvaTypeGetsOvaPath | ovftool/post-processor.go:49-54 | an unset path with type `ova` becomes `packer_{{ .BuildName }}_{{.Provider}}.ova` |
| OvfConfig.ApplyDefaultsIdempotent | ovftool/post-processor.go:45-54 | defaulting twice gives the same configuration as defaulting once |
| OvfConfig.Configure | ovftool/post-processor.go:34-84 | succeeds exactly when the executable is found, the defaulted path template is valid, the type is `ovf`/`ova` and compression is at most 9; success returns the defaulted configuration, which satisfies the configuration invariant; failure carries at least one reason |
| OvfConfig.ConfigureReportsEveryFailure | ovftool/post-processor.go:56-83 | each failing check contributes its reason and no passing check does, with no short-circuit; the reasons are distinct and in check order |
| OvfConfig.BadTypeAndCompressionBothReported | ovftool/post-processor.go:69-77 | a bad type and a bad compression level are both reported, type first, whatever the target path |
| Vmx.StripDrives | ovftool/post-processor.go:91-100 | afterwards both `present` flags are `FALSE`, `floppy0.present` is the only `floppy0.` key, and no `ide1:0.file` key remains; the keys are exactly the non-drive input keys plus the two flags; every other key keeps its value |
| Vmx.StripDrivesIdempotent | ovftool/post-processor.go:91-100 | stripping twice equals stripping once |
| Vmx.StrippedIsFixedPoint | ovftool/post-processor.go:91-100 | a descriptor is left unchanged by stripping exactly when it already has the stripped shape |
| Vmx.StripDrivesInPlace | ovftool/post-processor.go:91-100 | deleting drive keys one by one while visiting the keys in any order, then setting both flags, gives the same map as the comprehension |
| Vmx.StripDrivesSingleSurvivor | ovftool/post-processor.go:91-100 | a descriptor holding one ordinary key besides drive keys and the two flags strips to exactly that key with its value plus both flags set to `FALSE` |
| Vmx.StripDrivesExample | ovftool/post-processor.go:91-100 | a descriptor with floppy, CD-ROM and network entries keeps only the network entry plus both flags set to `FALSE` |
| Text.Decimal | ovftool/post-processor.go:143 | `%d` renders a level as a non-empty string of digits without a leading zero |
| Text.ParseDecimal | ovftool/post-processor.go:143 | the reader accepts exactly the non-empty all-digit strings |
| Text.DecimalRoundTrip | ovftool/post-processor.go:143 | reading back a rendered level yields the level |
| Text.DecimalInjective | ovftool/post-processor.go:143 | distinct levels render differently |
| PostProcessor.LastVmxIndex | ovftool/post-processor.go:111-116 | no index exactly when no file ends in `.vmx`; otherwise the index names a `.vmx` file and no later file ends in `.vmx` |
| PostProcessor.SelectedVmxIsLastMatch | ovftool/post-processor.go:111-119 | the selected path is empty exactly when no file ends in `.vmx`, and otherwise it is the last such file |
| PostProcessor.SelectVmx | ovftool/post-processor.go:111-119 | the overwrite-on-match loop returns the last `.vmx` file, or `""` exactly when there is none |
| PostProcessor.SelectVmxExample | ovftool/post-processor.go:111-116 | from a disk image and a descriptor, the descriptor is chosen |
| PostProcessor.BuildArgs | ovftool/post-processor.go:136-147 | the vector has 5 elements when compressing and 4 otherwise: type flag, EULA flag, the optional `--compress=<decimal>`, then VMX path and target path |
| PostProcessor.ArgsRoundTrip | ovftool/post-processor.go:136-147 | the argument vector can be read back into the type, level, VMX path and target it was built from |
| PostProcessor.BuildArgsExample | ovftool/post-processor.go:136-147 | an `ova` target at level 5 yields `--targetType=ova --acceptAllEulas --compress=5 build/machine.vmx packer_demo_vmware.ova` |
| PostProcessor.StripDrivesFile | ovftool/post-processor.go:86-104 | the descriptor is read first; a failed read ends the step with nothing written; otherwise the stripped map is written back to the same path and the step succeeds exactly when the write does |
| PostProcessor.PostProcess | ovftool/post-processor.go:106-160 | a foreign builder id, or no `.vmx` file, fails with no effect at all; the file read is the last `.vmx` file; a failed read or write ends with the strip error, and a failed expansion with the template error, before the tool runs; what is written is the stripped descriptor; the tool runs exactly when every earlier step succeeded, as `ovftool` with exactly the vector `BuildArgs` gives for the configured type and level, that VMX path and the expanded target; then a failed run returns an error carrying the captured output and a successful one returns the input artifact with keep `false` |
| PostProcessor.PostProcessSucceedsIff | ovftool/post-processor.go:106-160 | the artifact is returned exactly when the builder matches, a `.vmx` exists, the read, write and template expansion succeed and the tool succeeds |
| PostProcessor.ConfiguredRunStaysInToolGrammar | ovftool/post-processor.go:136-147 | after a successful `Configure`, every tool call names `ovf` or `ova` and a level of at most 9, and has the compression flag exactly when the level is positive |

## Left out

- `packer-post-processor-ovftool.go`: an earlier copy of the same plugin. It declares a second `main` in the same package as `main.go`, and its logic is a subset of the modelled one.
- `main.go`: plugin registration over packer's RPC transport; plumbing only.
- Configuration decoding and template creation (`common.DecodeConfig`, `packer.NewConfigTemplate`, ovftool/post-processor.go:35-43): foreign packer calls. The model starts from the decoded `Config`, and user variables are not modelled.
- `exec.LookPath`, `tpl.Validate` and `tpl.Process`: foreign OS and template-engine calls. They appear as a boolean, a predicate and a function of the `Host`.
- The VMX text format (`vmwcommon.ReadVMX` / `WriteVMX`): packer's VMware builder is not part of this model. Reading and writing are `Host` functions whose failure is an abstract outcome.
- Running the child process and capturing its output (ovftool/post-processor.go:149-158): `Host.runTool` returns success and the combined output. The `ui.Message` progress messages are not modelled.
- Exact wording of error messages: errors are enumerated reasons. The underlying error text of a failed read, write or expansion is dropped, as the source drops it for the strip failure. The tool's captured output is kept.
- OvfConfig.Configure: the compression level is an unbounded `nat`, not Go's `uint` (32 or 64 bits). Decoding enforces that width before the defaulting and checks that `OvfConfig.Configure` models (ovftool/post-processor.go:45-83), and the vacuous `>= 0` half of the range check disappears.
- OvfConfig.Configure: on failure the Go method has still written the defaulted fields into the post-processor; the model returns only the reasons, since the host does not run a post-processor whose configuration failed.
