# XenServer builder: the configuration pass

This project models `Builder.Prepare` from the Packer XenServer builder
plugin (`builder/xenserver/builder.go`). Prepare turns the raw options of a
build into the builder's `config` record. It works in these steps:

- decode the options and check for unused keys;
- fill in defaults: the VNC and HTTP port ranges, `boot_wait`,
  `ssh_wait_timeout` and `output_directory`;
- run twenty string fields through the template processor, in the order
  Go's map iteration happens to take;
- parse the two durations and validate the boot commands;
- check the required fields and the SSH key;
- default the platform flags and check both port ranges;
- lower-case and check the ISO checksum and its type;
- fold `iso_url` into the URL list and rewrite every URL into downloadable
  form.

Every problem is collected and none stops the pass. Only a decoding error
or a failure to create the template processor returns at once. Prepare
returns no parameters, and an error exactly when it collected a problem.

The model is in seven files:

- `externals.dfy` (module `Externals`): the helpers Prepare calls but this
  model cannot see, as the function fields of an `Env`. These are template
  processing and validation, duration parsing, `os.Stat`, the key loader,
  the hash lookup and `DownloadableURL`.
- `text.dfy` (`Text`): lower-casing.
- `config.dfy` (`BuildConfig`): the `config` record and the templated
  fields. `Get` and `With` read and write a field through the pointer the
  `templates` map holds for it.
- `errors.dfy` (`Errors`): the problems as constructors, and the
  index-tagged problems of the two per-entry loops.
- `validation.dfy` (`Validation`): each step as a pure function of the
  configuration, with exact counts of the problems it reports.
- `builder.dfy` (`XenServerBuilder`): the `Builder` class.
  - `Prepare` updates the `config` field step by step, through one method
    per step.
  - Each step method is proved against its function in `Validation`.
  - `Prepare` is proved against their composition (`Prepared`, `Problems`).
- `properties.dfy` holds three modules:
  - `PrepareProperties` defines `Reported`, which says directly in terms of
    the decoded configuration how often each problem is reported. It proves
    that `Problems` agrees with it for every iteration order.
  - `PreparedConfig` states what the final configuration holds.
  - `ReportedProblems` states the validation rules.

What the code checks about SSH access and the ISO image, as modelled:

- It does not check that an `ssh_password` or an `ssh_key_path` is given,
  nor that only one of them is: `ssh_password` is only templated, and a
  key path is checked only when it is set.
- It requires `iso_url` (the `ISOUrl` field) to be non-empty. When it is
  set it replaces the `iso_urls` list, and every entry of the list that
  `DownloadableURL` rejects is reported.

## Model

| member | source | states |
|---|---|---|
| XenServerBuilder.Builder.constructor | builder/xenserver/builder.go:69-72 | a builder holds the configuration it is given |
| XenServerBuilder.Builder.Prepare | builder/xenserver/builder.go:75-309 | never returns parameters. A decoding error or a template-processor error is returned alone, unwrapped. Otherwise the configuration ends as `Prepared` of the decoded one, and an error is returned exactly when the unused-key problems followed by `Problems` are non-empty; it carries that list |
| XenServerBuilder.Builder.SetDefaults | builder/xenserver/builder.go:95-121 | the new configuration is `Defaulted` of the old |
| XenServerBuilder.Builder.ProcessTemplates | builder/xenserver/builder.go:123-153 | whatever order the map iteration takes, every templated field ends up holding what the processor returned for it, and the problems are those of `TemplateErrors` in that order |
| XenServerBuilder.Builder.ParseDurations | builder/xenserver/builder.go:162-172 | both durations hold the parser's result; one problem for each duration that fails to parse |
| XenServerBuilder.Builder.ValidateBootCommand | builder/xenserver/builder.go:174-179 | leaves the configuration alone and reports one problem per invalid command, tagged with its index, in index order |
| XenServerBuilder.Builder.CheckFields | builder/xenserver/builder.go:181-244 | reports exactly `FieldErrors`: the twelve checks in source order |
| XenServerBuilder.Builder.RunCheck | builder/xenserver/builder.go:181-244 | one more check of the sequence adds exactly its own problems |
| XenServerBuilder.Builder.SetPlatformDefaults | builder/xenserver/builder.go:246-255 | an empty platform map becomes the six defaults; nothing else changes |
| XenServerBuilder.Builder.CheckPortRanges | builder/xenserver/builder.go:257-265 | reports exactly the ranges whose minimum exceeds the maximum |
| XenServerBuilder.Builder.NormaliseChecksum | builder/xenserver/builder.go:267-286 | the configuration becomes `ChecksumNormalised`, the problems `ChecksumErrors` of the old configuration |
| XenServerBuilder.Builder.FoldIsoUrl | builder/xenserver/builder.go:288-293 | a set `iso_url` replaces the list; an empty one is reported |
| XenServerBuilder.Builder.DownloadIsoUrls | builder/xenserver/builder.go:295-301 | each URL is rewritten in place by `DownloadableURL`, nothing else changes, and each rejected entry is reported with its index |
| Text.ToLower | builder/xenserver/builder.go:271 | same length; no upper-case letter left; every other character kept; each upper-case letter becomes its lower-case form |
| Text.LowerChar | builder/xenserver/builder.go:271 | defines the lower-casing of one character: an upper-case ASCII letter becomes the character 32 code points higher, its lower-case letter; any other character is kept; `ToLower` states what this means for a whole string |
| BuildConfig.Get | builder/xenserver/builder.go:147-149 | defines reading a templated field through the pointer the `templates` map holds for its key (`*ptr`), for the twenty keys of lines 123-144 |
| BuildConfig.IsIterationOrder | builder/xenserver/builder.go:147 | defines the orders in which ranging over the `templates` map may visit its keys: each of the twenty exactly once, in any order |
| BuildConfig.With | builder/xenserver/builder.go:147-150 | writing through a field's pointer changes that field and no other |
| BuildConfig.SameConfig | builder/xenserver/builder.go:21-66 | two configurations that agree on every templated field and on the rest are equal |
| Errors.UnusedKeyErrors | builder/xenserver/builder.go:82-85 | one problem per unused key, in order |
| Errors.Failures | builder/xenserver/builder.go:174-179 | a per-entry loop reports no more problems than there are entries |
| Errors.FailureAt | builder/xenserver/builder.go:175-178 | defines one iteration of a per-entry loop: an error for entry `i` is one problem tagged with `i`, no error is no problem; `FailuresStep` and `FailuresExact` state how the iterations add up |
| Errors.FailuresStep | builder/xenserver/builder.go:174-179 | checking one more entry appends that entry's problem, if any |
| Errors.FailuresExact | builder/xenserver/builder.go:174-179 | each failing entry is reported exactly once, with its own index and error; nothing else is reported |
| Errors.FailuresCount | builder/xenserver/builder.go:295-301 | as many problems as failing entries |
| Errors.NoFailures | builder/xenserver/builder.go:295-301 | no problem exactly when every entry passes |
| Validation.DefaultOutputDir | builder/xenserver/builder.go:119-121 | the default output directory is `output-` followed by the build name, and is never empty |
| Validation.Defaulted | builder/xenserver/builder.go:95-121 | defines the defaulting step: the seven fields of lines 95-121 each take their default when zero or empty; `DefaultsApplied` states the result field by field |
| Validation.DefaultsApplied | builder/xenserver/builder.go:95-121 | a zero bound or empty string takes its default, any other value is kept, and no other field changes |
| Validation.Templated | builder/xenserver/builder.go:123-153 | every templated field holds the processor's result for its old value; every other field is kept |
| Validation.TemplatedUpTo | builder/xenserver/builder.go:147-150 | defines the configuration after the loop has visited a prefix of the iteration order, each visit writing the processed value through the field's pointer; `TemplatedUpToGet`, `TemplatedUpToKeeps` and `TemplatedInAnyOrder` state what it holds |
| Validation.TemplatedUpToGet | builder/xenserver/builder.go:147-153 | after part of the loop, a field already visited holds its processed value and any other its old one |
| Validation.TemplatedUpToStep | builder/xenserver/builder.go:147-150 | one more iteration writes one more field |
| Validation.TemplatedUpToKeeps | builder/xenserver/builder.go:147-153 | the loop touches only templated fields |
| Validation.TemplatedInAnyOrder | builder/xenserver/builder.go:147-153 | the loop over any iteration order gives `Templated` |
| Validation.TemplateErrors | builder/xenserver/builder.go:147-153 | the template loop reports no more problems than it visits fields |
| Validation.TemplateError | builder/xenserver/builder.go:149-151 | defines the problem one visit reports: the processor's error for that field, tagged with the field; `LastTemplateCount` states its count |
| Validation.TemplateErrorsExact | builder/xenserver/builder.go:147-153 | each field the processor rejects is reported exactly once, with that error |
| Validation.LastTemplateCount | builder/xenserver/builder.go:149-151 | one field's iteration reports its own error and nothing else |
| Validation.TemplateErrorsOrderFree | builder/xenserver/builder.go:147-153 | the template problems of two iteration orders are the same multiset |
| Validation.Parsed | builder/xenserver/builder.go:162-172 | the two durations hold the parser's values, whether or not it failed; nothing else changes |
| Validation.DurationErrors | builder/xenserver/builder.go:162-172 | at most two problems, one per failing duration |
| Validation.DurationErrorsExact | builder/xenserver/builder.go:162-172 | each duration problem appears exactly when that parse failed |
| Validation.SshKeyErrorsExact | builder/xenserver/builder.go:186-194 | no problem for an empty key path. Otherwise the stat error if there is one, else the key loader's error if there is one |
| Validation.SshKeyErrorsShape | builder/xenserver/builder.go:186-194 | the key check reports at most one problem, and only about the key |
| Validation.FieldChecks | builder/xenserver/builder.go:181-244 | defines the twelve checks in source order: the ssh user, the ssh key, then username, password, host, instance name, disk size, clone template, ISO, storage repository, network and local address |
| Validation.Require | builder/xenserver/builder.go:181-184 | defines a required-field check: an empty value is one problem naming the field; `CheckCount` states its count |
| Validation.SshKeyErrors | builder/xenserver/builder.go:186-194 | defines the key check: nothing for an empty path, else the stat error, else the key loader's error; `SshKeyErrorsExact` and `SshKeyErrorsShape` state its counts |
| Validation.CheckErrors | builder/xenserver/builder.go:181-244 | defines the problems of one of the twelve checks, a required field or the key |
| Validation.RunChecks | builder/xenserver/builder.go:181-244 | defines the problems of running a prefix of the checks one after another, none stopping the rest; `RunChecksExact` states its counts |
| Validation.FieldErrors | builder/xenserver/builder.go:181-244 | defines the problems of all twelve checks in source order; `FieldErrorsExact` states its counts |
| Validation.CheckCount | builder/xenserver/builder.go:181-244 | a required-field check reports that field exactly when it is empty |
| Validation.RunChecksExact | builder/xenserver/builder.go:181-244 | a problem reported by a run of checks comes from the one check that can report it |
| Validation.RunAllChecksExact | builder/xenserver/builder.go:181-244 | the problems of all twelve checks, counted by the check that can report each |
| Validation.NotEarlier | builder/xenserver/builder.go:181-244 | a generic fact about sequences without repeats, used only in the proof of `RunChecksExact`: an element at position k does not occur among the first k. It models no line of the source by itself |
| Validation.FieldChecksDistinct | builder/xenserver/builder.go:181-244 | no check is made twice |
| Validation.FieldChecksCover | builder/xenserver/builder.go:181-244 | every required field and the key are checked |
| Validation.FieldErrorsExact | builder/xenserver/builder.go:181-244 | every empty required field is reported exactly once. Key problems are those of the key check. Nothing else is reported |
| Validation.WithPlatformDefaults | builder/xenserver/builder.go:246-255 | an empty map becomes the defaults, a non-empty one is kept; nothing else changes |
| Validation.PortErrors | builder/xenserver/builder.go:257-265 | the range checks report at most two problems |
| Validation.PortErrorsExact | builder/xenserver/builder.go:257-265 | a range is reported exactly when its minimum exceeds its maximum |
| Validation.ChecksumNormalised | builder/xenserver/builder.go:267-286 | a non-empty type is lower-cased. The checksum is lower-cased when it is non-empty and the type is not `none`. Nothing else changes |
| Validation.ChecksumErrors | builder/xenserver/builder.go:267-286 | at most two checksum problems |
| Validation.ChecksumErrorsExact | builder/xenserver/builder.go:267-286 | an empty type is reported alone. For a type other than `none`, an empty checksum and an unknown lower-cased type are each reported |
| Validation.UrlsFolded | builder/xenserver/builder.go:288-293 | a set `iso_url` becomes the one-entry list; otherwise the list is kept |
| Validation.Downloadable | builder/xenserver/builder.go:295-301 | entry by entry, the rewritten URL |
| Validation.DownloadableStep | builder/xenserver/builder.go:295-297 | one more iteration rewrites one more entry |
| Validation.UrlsNormalised | builder/xenserver/builder.go:295-301 | the list keeps its length; nothing but the list changes |
| Validation.MissingIsoUrlErrors | builder/xenserver/builder.go:288-290 | defines the problem of an empty `iso_url` |
| Validation.IsoUrlErrors | builder/xenserver/builder.go:288-301 | defines the URL problems: the missing `iso_url`, then each rejected entry of the folded list with its index; `IsoUrlErrorsExact` states their counts |
| Validation.IsoUrlErrorsExact | builder/xenserver/builder.go:288-301 | a missing `iso_url` is reported once; each rejected entry once, with its index |
| Validation.Checked | builder/xenserver/builder.go:123-172 | after defaulting, templating and parsing, every templated field holds its processed value |
| Validation.Prepared | builder/xenserver/builder.go:95-301 | defines the configuration a Prepare that gets past decoding leaves: every step of lines 95-301 applied in order; the lemmas of `PreparedConfig` state what it holds |
| Validation.Problems | builder/xenserver/builder.go:147-301 | defines the problems Prepare adds after the unused keys: the seven steps' problems, in source order; `ProblemsExact` counts them against `Reported` |
| PrepareProperties.Raw | builder/xenserver/builder.go:103-121 | defines a templated field's value before templating, with its own defaults: `5s`, `200m` and `output-` followed by the build name for an empty boot wait, ssh wait timeout and output directory |
| PrepareProperties.Value | builder/xenserver/builder.go:147-149 | defines a templated field's value after templating: what the processor returns for `Raw` |
| PrepareProperties.HttpMin | builder/xenserver/builder.go:107-109 | defines the HTTP minimum after defaulting: 8000 when zero |
| PrepareProperties.HttpMax | builder/xenserver/builder.go:111-113 | defines the HTTP maximum after defaulting: 9000 when zero |
| PrepareProperties.VncMin | builder/xenserver/builder.go:95-97 | defines the VNC minimum after defaulting: 5900 when zero |
| PrepareProperties.VncMax | builder/xenserver/builder.go:99-101 | defines the VNC maximum after defaulting: 6000 when zero |
| PrepareProperties.IsoUrlList | builder/xenserver/builder.go:288-293 | defines the list the URL loop walks: `iso_url` alone when it is set, the decoded list otherwise |
| PrepareProperties.ChecksumChecked | builder/xenserver/builder.go:267-272 | defines when the checksum and the hash are checked: the templated type is non-empty and not `none` once lower-cased |
| PrepareProperties.RawAgrees | builder/xenserver/builder.go:95-121 | the defaulting step gives every templated field its `Raw` value |
| PrepareProperties.Reported | builder/xenserver/builder.go:95-301 | the reference count of each problem, written directly from the conditions of lines 147-301 on the decoded configuration. It uses its own defaults (`Raw`, `HttpMin` and the rest, with the literals of lines 95-121) and none of the step functions; `ProblemsExact` proves `Problems` agrees with it |
| PrepareProperties.CheckedAgrees | builder/xenserver/builder.go:123-179 | the checks after templating see the processed values and the decoded boot commands |
| PrepareProperties.DurationsAgree | builder/xenserver/builder.go:162-172 | the parser sees the templated duration text |
| PrepareProperties.PlatformStageAgrees | builder/xenserver/builder.go:246-286 | the range and checksum checks see the defaulted ports and the processed checksum fields |
| PrepareProperties.UrlStageAgrees | builder/xenserver/builder.go:288-301 | the URL steps see the decoded `iso_url` and list |
| PrepareProperties.ProblemsSum | builder/xenserver/builder.go:147-301 | a problem's count is the sum of its counts in the seven steps |
| PrepareProperties.TemplateStage | builder/xenserver/builder.go:147-153 | the template loop reports exactly what `Reported` counts for template problems |
| PrepareProperties.DurationStage | builder/xenserver/builder.go:162-172 | the duration parsing reports exactly what `Reported` counts for duration problems |
| PrepareProperties.BootCommandStage | builder/xenserver/builder.go:174-179 | the boot command loop reports exactly what `Reported` counts for boot command problems |
| PrepareProperties.FieldStage | builder/xenserver/builder.go:181-244 | the field checks report exactly what `Reported` counts for missing fields and the key |
| PrepareProperties.PortStage | builder/xenserver/builder.go:257-265 | the range checks report exactly what `Reported` counts for ranges |
| PrepareProperties.ChecksumStage | builder/xenserver/builder.go:267-286 | the checksum checks report exactly what `Reported` counts for the checksum |
| PrepareProperties.ChecksumCount | builder/xenserver/builder.go:267-286 | the checksum problems depend only on the processed checksum and type |
| PrepareProperties.ReportedChecksum | builder/xenserver/builder.go:267-286 | the count of each checksum problem in terms of the processed type and checksum |
| PrepareProperties.IsoUrlStage | builder/xenserver/builder.go:288-301 | the URL steps report exactly what `Reported` counts for URLs |
| PrepareProperties.IsoUrlCount | builder/xenserver/builder.go:288-301 | the URL problems depend only on `iso_url` and the list |
| PrepareProperties.ReportedMissingIsoUrl | builder/xenserver/builder.go:288-290 | a missing `iso_url` is counted once exactly when it is empty |
| PrepareProperties.ReportedIsoUrlEntry | builder/xenserver/builder.go:295-300 | a rejected entry is counted once exactly when that entry of the folded list is rejected with that error |
| PrepareProperties.OneStageReports | builder/xenserver/builder.go:147-301 | each kind of problem comes from one step only |
| PrepareProperties.ProblemsExact | builder/xenserver/builder.go:147-301 | every problem Prepare reports after decoding appears exactly as often as `Reported` says |
| PrepareProperties.ProblemsCounted | builder/xenserver/builder.go:147-301 | for every iteration order, the problems are counted by `Reported` |
| PreparedConfig.PreparedPorts | builder/xenserver/builder.go:95-113 | the port bounds end up defaulted and otherwise as decoded |
| PreparedConfig.PortDefaults | builder/xenserver/builder.go:95-113 | the defaults are 5900 and 6000 for VNC and 8000 and 9000 for HTTP; no bound ends up zero |
| PreparedConfig.PreparedTemplatedFields | builder/xenserver/builder.go:123-153 | every templated field other than the two checksum fields ends up holding its processed value |
| PreparedConfig.LaterStagesKeep | builder/xenserver/builder.go:246-301 | the steps after the field checks change no templated field but the two checksum fields |
| PreparedConfig.PreparedBootCommand | builder/xenserver/builder.go:174-179 | the boot commands are validated, never rewritten |
| PreparedConfig.PreparedDurations | builder/xenserver/builder.go:162-172 | both durations hold the parser's value for their templated text |
| PreparedConfig.PreparedPlatformArgs | builder/xenserver/builder.go:246-255 | an empty platform map becomes the six defaults; any other is kept |
| PreparedConfig.DefaultPlatformArgsExact | builder/xenserver/builder.go:247-253 | the defaults are viridian=false, nx=true, pae=true, apic=true, timeoffset=0, acpi=1, and nothing else |
| PreparedConfig.PreparedChecksum | builder/xenserver/builder.go:267-286 | a non-empty checksum type ends lower-cased. Unless it is `none`, a non-empty checksum ends lower-cased too |
| PreparedConfig.PreparedIsoUrls | builder/xenserver/builder.go:288-301 | the list is the folded list rewritten entry by entry. A set `iso_url` leaves one entry; otherwise the list keeps its length |
| ReportedProblems.PortRangesReported | builder/xenserver/builder.go:257-265 | each range is reported at most once, and exactly when its defaulted minimum exceeds its defaulted maximum |
| ReportedProblems.MinAboveDefaultMax | builder/xenserver/builder.go:257-265 | a minimum above the default maximum, with the maximum unset and so defaulted (lines 99-101 and 111-113), is reported by the range check |
| ReportedProblems.RequiredFieldsReported | builder/xenserver/builder.go:181-244 | every required field empty after templating is reported exactly once; no other field is ever reported missing |
| ReportedProblems.NoneChecksumIsQuiet | builder/xenserver/builder.go:267-286 | a `none` type, in any case, draws no checksum problem and leaves the checksum as templated |
| ReportedProblems.ChecksumProblems | builder/xenserver/builder.go:267-286 | an empty type is the only checksum problem. For any other type, an empty checksum and an unknown type are each reported once |
| ReportedProblems.SshKeyAtMostOne | builder/xenserver/builder.go:186-194 | no key path, no key problem; otherwise at most one, the stat error before the loader's |
| ReportedProblems.EntriesReported | builder/xenserver/builder.go:147-179 | each failing boot command is reported once with its index, and each rejected template once with its field |
| ReportedProblems.IsoUrlsReported | builder/xenserver/builder.go:288-301 | an empty `iso_url` is reported once; each rejected entry of the folded list once, with its index |
| ReportedProblems.ProblemsOrderFree | builder/xenserver/builder.go:147-153 | the map iteration order changes at most the order of the problems |
| ReportedProblems.CountedAlike | builder/xenserver/builder.go:147-301 | two problem lists counted alike hold the same problems |
| ReportedProblems.Clean | builder/xenserver/builder.go:147-301 | the conditions under which Prepare reports nothing: every template processes, both durations parse, every boot command validates, every required field is set and a named key loads, both ranges are in order, the checksum passes and `iso_url` is set and downloadable; `NoProblemsIffClean` proves it exact |
| ReportedProblems.CleanReportsNothing | builder/xenserver/builder.go:147-301 | a clean configuration draws no problem |
| ReportedProblems.NothingReportedIsClean | builder/xenserver/builder.go:147-301 | a configuration that draws no problem is clean |
| ReportedProblems.NothingReportedTemplates | builder/xenserver/builder.go:147-153 | no template problem means every field processes |
| ReportedProblems.NothingReportedDurations | builder/xenserver/builder.go:162-172 | no duration problem means both durations parse |
| ReportedProblems.NothingReportedBootCommand | builder/xenserver/builder.go:174-179 | no boot command problem means every command validates |
| ReportedProblems.NothingReportedFields | builder/xenserver/builder.go:181-244 | no field problem means every required field is set and a named key can be read |
| ReportedProblems.NothingReportedPorts | builder/xenserver/builder.go:257-265 | no range problem means both ranges are in order |
| ReportedProblems.NothingReportedChecksum | builder/xenserver/builder.go:267-286 | no checksum problem means a type is given, and it is `none` or a known hash with a checksum |
| ReportedProblems.NothingReportedIsoUrl | builder/xenserver/builder.go:288-301 | no URL problem means `iso_url` is set and downloadable |
| ReportedProblems.NoProblemsIffClean | builder/xenserver/builder.go:303-307 | Prepare reports nothing beyond unused keys exactly when the configuration is clean |

## Left out

- `Builder.Run` and `Builder.Cancel` (builder.go:311 onwards) are not part of this model. They talk to the XenServer API and run the build steps.
- The text of each message is not modelled. Each kind of problem is a constructor carrying the parts the message interpolates. How `packer.MultiError` formats the list is not modelled either.
- The template processor (`tpl`) is not a field of the configuration. Its `Process` and `Validate` are functions of the `Env`, so the template syntax and the data it sees are not modelled.
- `common.DecodeConfig`, `common.CheckUnusedConfig` and `packer.NewConfigTemplate` are inputs: their outcome, the unused keys and the creation error.
- XenServerBuilder.Builder.Prepare: after a decoding error the configuration is taken as unchanged. What mapstructure writes before it fails is not modelled.
- `time.ParseDuration`, `os.Stat`, `ssh.FileSigner`, `common.HashForType` and `common.DownloadableURL` are parameters (the `Env`). Their own behaviour, and the file system and network they reach, are not modelled.
- Go's map iteration order is not modelled as random. It is the `order` parameter, which may be any order of the twenty template keys.
- The `runner` field of the builder is only used by `Run` and `Cancel`; it is not modelled.
- Text.ToLower and Text.LowerChar: lower-case ASCII letters only; Go's `strings.ToLower` also maps other Unicode upper-case letters.
- `uint` is taken as 64 bits wide. Prepare does no arithmetic on the ports, so the width matters only for the range of values.
- `Duration` is an opaque signed 64-bit count. What a parsed duration means is not modelled.
- The squashed `common.PackerConfig` (builder.go:22) brings further options: the builder type, debug, force and user variables. Prepare does not touch them, and only `packer_build_name` is a field here.
- The check of `IsoUrl` at builder.go:155-160 is commented out in the source and is not modelled. The field is only templated.
