/** The XenServer builder object and its configuration pass, Prepare. */
module XenServerBuilder {
  import opened Externals
  import opened Text
  import opened BuildConfig
  import opened Errors
  import opened Validation

  /** What common.DecodeConfig and common.CheckUnusedConfig give: a decoding
      error, or the decoded configuration with the keys reported as unused. */
  datatype Decoded =
    | DecodeFailed(detail: string)
    | Decoded(config: Config, unusedKeys: seq<string>)

  /** The error Prepare returns: one it passes on unchanged, or the
      accumulated problems. */
  datatype PrepareError =
    | Fatal(detail: string)
    | Invalid(errors: seq<Error>)

  class Builder {
    var config: Config

    constructor (initial: Config)
      ensures config == initial
    {
      config := initial;
    }

    /** Decodes, defaults, templates and validates the configuration. Every
        problem is accumulated and none stops the pass; only a decoding error
        or a failure to create the template processor returns at once.
        `templateInit` is the error of packer.NewConfigTemplate, if any, and
        `order` the order in which ranging over the `templates` map visits
        its keys. */
    method Prepare(decoded: Decoded, templateInit: Option<string>, env: Env, order: seq<TemplateField>)
      returns (params: Option<seq<string>>, retErr: Option<PrepareError>)
      requires IsIterationOrder(order)
      modifies this
      ensures params == None
      ensures decoded.DecodeFailed? ==> config == old(config) && retErr == Some(Fatal(decoded.detail))
      ensures decoded.Decoded? && templateInit.Some? ==>
                config == decoded.config && retErr == Some(Fatal(templateInit.value))
      ensures decoded.Decoded? && templateInit.None? ==>
                var errs := UnusedKeyErrors(decoded.unusedKeys) + Problems(decoded.config, env, order);
                && config == Prepared(decoded.config, env)
                && (retErr.Some? <==> errs != [])
                && (retErr.Some? ==> retErr.value == Invalid(errs))
    {
      params := None;
      if decoded.DecodeFailed? {
        return None, Some(Fatal(decoded.detail));
      }
      config := decoded.config;
      var errs := UnusedKeyErrors(decoded.unusedKeys);
      if templateInit.Some? {
        return None, Some(Fatal(templateInit.value));
      }

      SetDefaults();
      var problems := ProcessTemplates(env, order);
      var found := ParseDurations(env);
      problems := problems + found;
      found := ValidateBootCommand(env);
      problems := problems + found;
      found := CheckFields(env);
      problems := problems + found;
      SetPlatformDefaults();
      found := CheckPortRanges();
      problems := problems + found;
      found := NormaliseChecksum(env);
      problems := problems + found;
      found := FoldIsoUrl();
      var rejected := DownloadIsoUrls(env);
      found := found + rejected;
      problems := problems + found;

      errs := errs + problems;
      if |errs| > 0 {
        retErr := Some(Invalid(errs));
      } else {
        retErr := None;
      }
    }

    /** Fills in zero port bounds and empty duration and directory strings. */
    method SetDefaults()
      modifies this
      ensures config == Defaulted(old(config))
    {
      if config.vncPortMin == 0 {
        config := config.(vncPortMin := DefaultVncPortMin);
      }
      if config.vncPortMax == 0 {
        config := config.(vncPortMax := DefaultVncPortMax);
      }
      if |config.rawBootWait| == 0 {
        config := config.(rawBootWait := DefaultBootWait);
      }
      if config.httpPortMin == 0 {
        config := config.(httpPortMin := DefaultHttpPortMin);
      }
      if config.httpPortMax == 0 {
        config := config.(httpPortMax := DefaultHttpPortMax);
      }
      if |config.rawSshWaitTimeout| == 0 {
        config := config.(rawSshWaitTimeout := DefaultSshWaitTimeout);
      }
      if |config.outputDir| == 0 {
        config := config.(outputDir := DefaultOutputDir(config.packerBuildName));
      }
    }

    /** Runs every templated field through the processor, in `order`,
        writing back what it returns and collecting its errors. */
    method ProcessTemplates(env: Env, order: seq<TemplateField>) returns (found: seq<Error>)
      requires IsIterationOrder(order)
      modifies this
      ensures config == Templated(old(config), env)
      ensures found == TemplateErrors(old(config), env, order)
    {
      ghost var start := config;
      found := [];
      for i := 0 to |order|
        invariant config == TemplatedUpTo(start, env, order, i)
        invariant found == TemplateErrors(start, env, order[..i])
      {
        var f := order[i];
        TemplatedUpToGet(start, env, order, i, f);
        assert f !in order[..i];
        var processed := env.process(Get(config, f));
        config := With(config, f, processed.value);
        if processed.err.Some? {
          found := found + [TemplateInvalid(f, processed.err.value)];
        }
        PrefixGrows(order, i);
      }
      assert order[..|order|] == order;
      TemplatedInAnyOrder(start, env, order);
    }

    /** Parses the boot wait and the ssh wait timeout. */
    method ParseDurations(env: Env) returns (found: seq<Error>)
      modifies this
      ensures config == Parsed(old(config), env)
      ensures found == DurationErrors(old(config), env)
    {
      found := [];
      var bootWait := env.parseDuration(config.rawBootWait);
      config := config.(bootWait := bootWait.value);
      if bootWait.err.Some? {
        found := found + [BootWaitUnparsable];
      }
      var timeout := env.parseDuration(config.rawSshWaitTimeout);
      config := config.(sshWaitTimeout := timeout.value);
      if timeout.err.Some? {
        found := found + [SshWaitTimeoutUnparsable(timeout.err.value)];
      }
    }

    /** Checks the template syntax of every boot command, changing none. */
    method ValidateBootCommand(env: Env) returns (found: seq<Error>)
      ensures found == Failures(BootCommandEntry, config.bootCommand, env.validate)
    {
      var commands := config.bootCommand;
      found := [];
      for i := 0 to |commands|
        invariant found == Failures(BootCommandEntry, commands[..i], env.validate)
      {
        var err := env.validate(commands[i]);
        if err.Some? {
          found := found + [EntryInvalid(BootCommandEntry, i, err.value)];
        }
        FailuresStep(BootCommandEntry, commands, i, env.validate);
      }
      assert commands[..|commands|] == commands;
    }

    /** Checks the ssh user, the ssh key and the other required fields, in
        that order, reporting every problem. */
    method CheckFields(env: Env) returns (found: seq<Error>)
      ensures found == FieldErrors(config, env)
    {
      found := [];
      found := RunCheck(0, env, found);  // ssh_username
      found := RunCheck(1, env, found);  // ssh_key_path
      found := RunCheck(2, env, found);  // username
      found := RunCheck(3, env, found);  // password
      found := RunCheck(4, env, found);  // host_ip
      found := RunCheck(5, env, found);  // instance_name
      found := RunCheck(6, env, found);  // root_disk_size
      found := RunCheck(7, env, found);  // clone_template
      found := RunCheck(8, env, found);  // iso_uuid
      found := RunCheck(9, env, found);  // sr_uuid
      found := RunCheck(10, env, found);  // network_uuid
      found := RunCheck(11, env, found);  // local_ip
    }

    /** Runs check number `k` of `FieldChecks` and appends what it reports to
        the problems of the checks before it. */
    method RunCheck(k: nat, env: Env, found: seq<Error>) returns (more: seq<Error>)
      requires k < |FieldChecks()|
      requires found == RunChecks(Checker(config, env), FieldChecks(), k)
      ensures more == RunChecks(Checker(config, env), FieldChecks(), k + 1)
    {
      more := found;
      match FieldChecks()[k] {
        case RequireField(f) =>
          if |Get(config, f)| == 0 {
            more := more + [Missing(f)];
          }
        case CheckSshKey =>
          if |config.sshKeyPath| != 0 {
            var statErr := env.stat(config.sshKeyPath);
            if statErr.Some? {
              more := more + [SshKeyInvalid(statErr.value)];
            } else {
              var signerErr := env.fileSigner(config.sshKeyPath);
              if signerErr.Some? {
                more := more + [SshKeyInvalid(signerErr.value)];
              }
            }
          }
      }
    }

    /** Puts the default platform flags in place of an empty map. */
    method SetPlatformDefaults()
      modifies this
      ensures config == WithPlatformDefaults(old(config))
    {
      if |config.platformArgs| == 0 {
        var pargs: map<string, string> := map[];
        pargs := pargs["viridian" := "false"];
        pargs := pargs["nx" := "true"];
        pargs := pargs["pae" := "true"];
        pargs := pargs["apic" := "true"];
        pargs := pargs["timeoffset" := "0"];
        pargs := pargs["acpi" := "1"];
        config := config.(platformArgs := pargs);
      }
    }

    /** Checks that neither port range is inverted. */
    method CheckPortRanges() returns (found: seq<Error>)
      ensures found == PortErrors(config)
    {
      found := [];
      if config.httpPortMin > config.httpPortMax {
        found := found + [HttpPortRange];
      }
      if config.vncPortMin > config.vncPortMax {
        found := found + [VncPortRange];
      }
    }

    /** Lower-cases and checks the checksum type and the checksum. */
    method NormaliseChecksum(env: Env) returns (found: seq<Error>)
      modifies this
      ensures config == ChecksumNormalised(old(config))
      ensures found == ChecksumErrors(old(config), env)
    {
      found := [];
      if |config.isoChecksumType| == 0 {
        found := found + [MissingChecksumType];
      } else {
        config := config.(isoChecksumType := ToLower(config.isoChecksumType));
        if config.isoChecksumType != "none" {
          if |config.isoChecksum| == 0 {
            found := found + [MissingChecksum];
          } else {
            config := config.(isoChecksum := ToLower(config.isoChecksum));
          }
          if !env.hashKnown(config.isoChecksumType) {
            found := found + [UnsupportedChecksumType(config.isoChecksumType)];
          }
        }
      }
    }

    /** Replaces the URL list by `isoURL` alone when that is set, and
        reports it missing otherwise. */
    method FoldIsoUrl() returns (found: seq<Error>)
      modifies this
      ensures config == UrlsFolded(old(config))
      ensures found == MissingIsoUrlErrors(old(config))
    {
      found := [];
      if |config.isoURL| == 0 {
        found := found + [MissingIsoUrl];
      } else {
        config := config.(isoUrls := [config.isoURL]);
      }
    }

    /** Rewrites each URL in place with what DownloadableURL returns for
        it, reporting each one it rejects. */
    method DownloadIsoUrls(env: Env) returns (found: seq<Error>)
      modifies this
      ensures config == UrlsNormalised(old(config), env)
      ensures found == Failures(IsoUrlEntry, old(config).isoUrls, UrlCheck(env))
    {
      ghost var start := config;
      var urls := config.isoUrls;
      found := [];
      for i := 0 to |urls|
        invariant config == start.(isoUrls := config.isoUrls)
        invariant config.isoUrls == Downloadable(urls[..i], env) + urls[i..]
        invariant found == Failures(IsoUrlEntry, urls[..i], UrlCheck(env))
      {
        var url := env.downloadableURL(urls[i]);
        config := config.(isoUrls := config.isoUrls[i := url.value]);
        if url.err.Some? {
          found := found + [EntryInvalid(IsoUrlEntry, i, url.err.value)];
        }
        DownloadableStep(urls, i, env);
        FailuresStep(IsoUrlEntry, urls, i, UrlCheck(env));
      }
      assert urls[..|urls|] == urls;
    }
  }
}
