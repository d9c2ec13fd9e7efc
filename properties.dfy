/** What a Prepare that gets past decoding does, stated directly in terms of
    the decoded configuration: which problems it reports, each how often, and
    what the configuration holds afterwards. */
module PrepareProperties {
  import opened Externals
  import opened Text
  import opened BuildConfig
  import opened Errors
  import opened Validation

  /** The value of templated field `f` before templating: the decoded one,
      or, for the three strings that have a default, that default when the
      decoded one is empty. */
  function Raw(c: Config, f: TemplateField): string {
    match f
    case BootWait => if |c.rawBootWait| == 0 then "5s" else c.rawBootWait
    case SshWaitTimeout => if |c.rawSshWaitTimeout| == 0 then "200m" else c.rawSshWaitTimeout
    case OutputDirectory => if |c.outputDir| == 0 then "output-" + c.packerBuildName else c.outputDir
    case _ => Get(c, f)
  }

  /** The value of templated field `f` after defaulting and templating. */
  function Value(c: Config, env: Env, f: TemplateField): string {
    env.process(Raw(c, f)).value
  }

  /** The defaulting step gives every templated field its raw value. */
  lemma RawAgrees(c: Config)
    ensures forall f :: Get(Defaulted(c), f) == Raw(c, f)
  {
  }

  /** The port bounds after defaulting. */
  function HttpMin(c: Config): uint { if c.httpPortMin == 0 then 8000 else c.httpPortMin }
  function HttpMax(c: Config): uint { if c.httpPortMax == 0 then 9000 else c.httpPortMax }
  function VncMin(c: Config): uint { if c.vncPortMin == 0 then 5900 else c.vncPortMin }
  function VncMax(c: Config): uint { if c.vncPortMax == 0 then 6000 else c.vncPortMax }

  /** The URL list the normalisation loop walks: `isoURL` alone when it is
      set, the decoded list otherwise. */
  function IsoUrlList(c: Config): seq<string> {
    if |c.isoURL| == 0 then c.isoUrls else [c.isoURL]
  }

  /** Whether the checksum type, after templating, asks for a checksum
      check: it is neither empty nor "none" in any case. */
  predicate ChecksumChecked(c: Config, env: Env) {
    var ty := Value(c, env, IsoChecksumType);
    |ty| != 0 && ToLower(ty) != "none"
  }

  /** How often Prepare reports problem `e` for decoded configuration `c`,
      written from the conditions each check tests. */
  function Reported(c: Config, env: Env, e: Error): nat {
    match e
    case UnusedKey(_) => 0
    case TemplateInvalid(f, d) =>
      if env.process(Raw(c, f)).err == Some(d) then 1 else 0
    case BootWaitUnparsable =>
      if env.parseDuration(Value(c, env, BootWait)).err.Some? then 1 else 0
    case SshWaitTimeoutUnparsable(d) =>
      if env.parseDuration(Value(c, env, SshWaitTimeout)).err == Some(d) then 1 else 0
    case EntryInvalid(BootCommandEntry, i, d) =>
      if i < |c.bootCommand| && env.validate(c.bootCommand[i]) == Some(d) then 1 else 0
    case EntryInvalid(IsoUrlEntry, i, d) =>
      if i < |IsoUrlList(c)| && env.downloadableURL(IsoUrlList(c)[i]).err == Some(d) then 1 else 0
    case Missing(f) =>
      if f in RequiredFields && |Value(c, env, f)| == 0 then 1 else 0
    case SshKeyInvalid(d) =>
      var path := Value(c, env, SshKeyPath);
      if |path| != 0 && (env.stat(path) == Some(d) || (env.stat(path).None? && env.fileSigner(path) == Some(d)))
      then 1 else 0
    case HttpPortRange => if HttpMin(c) > HttpMax(c) then 1 else 0
    case VncPortRange => if VncMin(c) > VncMax(c) then 1 else 0
    case MissingChecksumType => if |Value(c, env, IsoChecksumType)| == 0 then 1 else 0
    case MissingChecksum =>
      if ChecksumChecked(c, env) && |Value(c, env, IsoChecksum)| == 0 then 1 else 0
    case UnsupportedChecksumType(t) =>
      var lowered := ToLower(Value(c, env, IsoChecksumType));
      if ChecksumChecked(c, env) && !env.hashKnown(lowered) && t == lowered then 1 else 0
    case MissingIsoUrl => if |c.isoURL| == 0 then 1 else 0
  }

  /** The fields the checks after templating look at, related to the
      decoded configuration. */
  lemma CheckedAgrees(c: Config, env: Env)
    ensures forall f :: Get(Checked(c, env), f) == Value(c, env, f)
    ensures Checked(c, env).bootCommand == c.bootCommand
  {
    RawAgrees(c);
    var d := Defaulted(c);
    assert Untemplated(Templated(d, env)) == Untemplated(d);
  }

  /** The raw durations the parser sees are their templated values. */
  lemma DurationsAgree(c: Config, env: Env)
    ensures Templated(Defaulted(c), env).rawBootWait == Value(c, env, BootWait)
    ensures Templated(Defaulted(c), env).rawSshWaitTimeout == Value(c, env, SshWaitTimeout)
  {
    RawAgrees(c);
    var t := Templated(Defaulted(c), env);
    assert t.rawBootWait == Get(t, BootWait);
    assert t.rawSshWaitTimeout == Get(t, SshWaitTimeout);
  }

  /** The ports and the checksum fields the range and checksum checks see. */
  lemma PlatformStageAgrees(c: Config, env: Env)
    ensures var a := WithPlatformDefaults(Checked(c, env));
      && a.isoChecksumType == Value(c, env, IsoChecksumType)
      && a.isoChecksum == Value(c, env, IsoChecksum)
      && a.httpPortMin == HttpMin(c) && a.httpPortMax == HttpMax(c)
      && a.vncPortMin == VncMin(c) && a.vncPortMax == VncMax(c)
  {
    var d := Defaulted(c);
    assert Untemplated(Templated(d, env)) == Untemplated(d);
    CheckedAgrees(c, env);
    var a := WithPlatformDefaults(Checked(c, env));
    assert a.isoChecksumType == Get(a, IsoChecksumType);
    assert a.isoChecksum == Get(a, IsoChecksum);
  }

  /** The URL fields the ISO URL stage sees are the decoded ones. */
  lemma UrlStageAgrees(c: Config, env: Env)
    ensures var n := ChecksumNormalised(WithPlatformDefaults(Checked(c, env)));
      n.isoURL == c.isoURL && n.isoUrls == c.isoUrls
  {
    var d := Defaulted(c);
    assert Untemplated(Templated(d, env)) == Untemplated(d);
  }

  /** The count of a problem in the whole list is the sum of its counts in
      the stages' lists. */
  lemma ProblemsSum(c: Config, env: Env, order: seq<TemplateField>, e: Error)
    ensures var d := Defaulted(c);
      var t := Templated(d, env);
      var p := Parsed(t, env);
      var a := WithPlatformDefaults(p);
      multiset(Problems(c, env, order))[e] ==
        multiset(TemplateErrors(d, env, order))[e] + multiset(DurationErrors(t, env))[e]
        + multiset(Failures(BootCommandEntry, p.bootCommand, env.validate))[e]
        + multiset(FieldErrors(p, env))[e] + multiset(PortErrors(a))[e]
        + multiset(ChecksumErrors(a, env))[e] + multiset(IsoUrlErrors(ChecksumNormalised(a), env))[e]
  {
  }

  /** The template loop reports exactly the template problems Reported counts. */
  lemma TemplateStage(c: Config, env: Env, order: seq<TemplateField>, e: Error)
    requires IsIterationOrder(order)
    ensures multiset(TemplateErrors(Defaulted(c), env, order))[e] == if e.TemplateInvalid? then Reported(c, env, e) else 0
  {
    RawAgrees(c);
    TemplateErrorsExact(Defaulted(c), env, order, e);
  }

  /** The duration parsing reports exactly the duration problems Reported counts. */
  lemma DurationStage(c: Config, env: Env, e: Error)
    ensures multiset(DurationErrors(Templated(Defaulted(c), env), env))[e] ==
            if e.BootWaitUnparsable? || e.SshWaitTimeoutUnparsable? then Reported(c, env, e) else 0
  {
    DurationsAgree(c, env);
    DurationErrorsExact(Templated(Defaulted(c), env), env, e);
  }

  /** The boot command loop reports exactly the boot command problems Reported counts. */
  lemma BootCommandStage(c: Config, env: Env, e: Error)
    ensures multiset(Failures(BootCommandEntry, Checked(c, env).bootCommand, env.validate))[e] ==
            if e.EntryInvalid? && e.list == BootCommandEntry then Reported(c, env, e) else 0
  {
    CheckedAgrees(c, env);
    FailuresExact(BootCommandEntry, Checked(c, env).bootCommand, env.validate, e);
  }

  /** The field checks report exactly the missing-field and key problems Reported counts. */
  lemma FieldStage(c: Config, env: Env, e: Error)
    ensures multiset(FieldErrors(Checked(c, env), env))[e] ==
            if e.Missing? || e.SshKeyInvalid? then Reported(c, env, e) else 0
  {
    var p := Checked(c, env);
    CheckedAgrees(c, env);
    assert p.sshKeyPath == Get(p, SshKeyPath);
    FieldErrorsExact(p, env, e);
    SshKeyErrorsExact(p.sshKeyPath, env, e);
  }

  /** The range checks report exactly the range problems Reported counts. */
  lemma PortStage(c: Config, env: Env, e: Error)
    ensures multiset(PortErrors(WithPlatformDefaults(Checked(c, env))))[e] ==
            if e.HttpPortRange? || e.VncPortRange? then Reported(c, env, e) else 0
  {
    PlatformStageAgrees(c, env);
    PortErrorsExact(WithPlatformDefaults(Checked(c, env)), e);
  }

  /** The checksum checks report exactly the checksum problems Reported counts. */
  lemma ChecksumStage(c: Config, env: Env, e: Error)
    ensures multiset(ChecksumErrors(WithPlatformDefaults(Checked(c, env)), env))[e] ==
            if e.MissingChecksumType? || e.MissingChecksum? || e.UnsupportedChecksumType?
            then Reported(c, env, e) else 0
  {
    PlatformStageAgrees(c, env);
    ChecksumCount(WithPlatformDefaults(Checked(c, env)), c, env, e);
  }

  /** The checksum checks on any configuration whose checksum fields are
      the templated ones. */
  lemma ChecksumCount(a: Config, c: Config, env: Env, e: Error)
    requires a.isoChecksumType == Value(c, env, IsoChecksumType)
    requires a.isoChecksum == Value(c, env, IsoChecksum)
    ensures multiset(ChecksumErrors(a, env))[e] ==
            if e.MissingChecksumType? || e.MissingChecksum? || e.UnsupportedChecksumType?
            then Reported(c, env, e) else 0
  {
    ChecksumErrorsExact(a, env, e);
    match e {
      case MissingChecksumType => ReportedChecksum(c, env, e);
      case MissingChecksum => ReportedChecksum(c, env, e);
      case UnsupportedChecksumType(_) => ReportedChecksum(c, env, e);
      case _ =>
    }
  }

  /** Reported for the three checksum problems. */
  lemma ReportedChecksum(c: Config, env: Env, e: Error)
    requires e.MissingChecksumType? || e.MissingChecksum? || e.UnsupportedChecksumType?
    ensures var ty := Value(c, env, IsoChecksumType);
      var t := ToLower(ty);
      var checked := |ty| != 0 && t != "none";
      Reported(c, env, e) ==
        if e == MissingChecksumType then (if |ty| == 0 then 1 else 0)
        else if e == MissingChecksum then (if checked && |Value(c, env, IsoChecksum)| == 0 then 1 else 0)
        else (if checked && !env.hashKnown(t) && e.checksumType == t then 1 else 0)
  {
  }

  /** The URL checks report exactly the URL problems Reported counts. */
  lemma IsoUrlStage(c: Config, env: Env, e: Error)
    ensures multiset(IsoUrlErrors(ChecksumNormalised(WithPlatformDefaults(Checked(c, env))), env))[e] ==
            if e.MissingIsoUrl? || (e.EntryInvalid? && e.list == IsoUrlEntry) then Reported(c, env, e) else 0
  {
    UrlStageAgrees(c, env);
    IsoUrlCount(ChecksumNormalised(WithPlatformDefaults(Checked(c, env))), c, env, e);
  }

  /** The URL checks on any configuration whose URL fields are the decoded ones. */
  lemma IsoUrlCount(n: Config, c: Config, env: Env, e: Error)
    requires n.isoURL == c.isoURL && n.isoUrls == c.isoUrls
    ensures multiset(IsoUrlErrors(n, env))[e] ==
            if e.MissingIsoUrl? || (e.EntryInvalid? && e.list == IsoUrlEntry) then Reported(c, env, e) else 0
  {
    var urls := UrlsFolded(n).isoUrls;
    assert urls == IsoUrlList(c);
    IsoUrlErrorsExact(n, env, e);
    match e {
      case MissingIsoUrl =>
        ReportedMissingIsoUrl(c, env);
      case EntryInvalid(list, i, d) =>
        if list == IsoUrlEntry {
          ReportedIsoUrlEntry(c, env, i, d);
        }
      case _ =>
    }
  }

  /** Reported for the missing ISO URL. */
  lemma ReportedMissingIsoUrl(c: Config, env: Env)
    ensures Reported(c, env, MissingIsoUrl) == if |c.isoURL| == 0 then 1 else 0
  {
  }

  /** Reported for a rejected URL entry. */
  lemma ReportedIsoUrlEntry(c: Config, env: Env, i: nat, d: string)
    ensures Reported(c, env, EntryInvalid(IsoUrlEntry, i, d)) ==
            if i < |IsoUrlList(c)| && env.downloadableURL(IsoUrlList(c)[i]).err == Some(d) then 1 else 0
  {
  }

  /** `problems` holds each problem exactly as often as Reported says. */
  ghost predicate Counted(problems: seq<Error>, c: Config, env: Env) {
    forall e :: multiset(problems)[e] == Reported(c, env, e)
  }

  /** Each kind of problem comes from exactly one stage, so the stages'
      counts add up to the count of the stage that reports it. */
  lemma OneStageReports(e: Error, r: nat, templ: nat, dur: nat, boot: nat, field: nat,
                        port: nat, sum: nat, url: nat)
    requires e.UnusedKey? ==> r == 0
    requires templ == if e.TemplateInvalid? then r else 0
    requires dur == if e.BootWaitUnparsable? || e.SshWaitTimeoutUnparsable? then r else 0
    requires boot == if e.EntryInvalid? && e.list == BootCommandEntry then r else 0
    requires field == if e.Missing? || e.SshKeyInvalid? then r else 0
    requires port == if e.HttpPortRange? || e.VncPortRange? then r else 0
    requires sum == if e.MissingChecksumType? || e.MissingChecksum? || e.UnsupportedChecksumType? then r else 0
    requires url == if e.MissingIsoUrl? || (e.EntryInvalid? && e.list == IsoUrlEntry) then r else 0
    ensures templ + dur + boot + field + port + sum + url == r
  {
  }

  /** Every problem Prepare reports after decoding, counted: each is reported
      exactly as often as Reported says, whichever order the template loop
      takes. */
  lemma ProblemsExact(c: Config, env: Env, order: seq<TemplateField>, e: Error)
    requires IsIterationOrder(order)
    ensures multiset(Problems(c, env, order))[e] == Reported(c, env, e)
  {
    var d := Defaulted(c);
    var t := Templated(d, env);
    var p := Parsed(t, env);
    var a := WithPlatformDefaults(p);
    ProblemsSum(c, env, order, e);
    TemplateStage(c, env, order, e);
    DurationStage(c, env, e);
    BootCommandStage(c, env, e);
    FieldStage(c, env, e);
    PortStage(c, env, e);
    ChecksumStage(c, env, e);
    IsoUrlStage(c, env, e);
    if e.UnusedKey? {
      assert Reported(c, env, e) == 0;
    }
    OneStageReports(e, Reported(c, env, e),
      multiset(TemplateErrors(d, env, order))[e], multiset(DurationErrors(t, env))[e],
      multiset(Failures(BootCommandEntry, p.bootCommand, env.validate))[e],
      multiset(FieldErrors(p, env))[e], multiset(PortErrors(a))[e],
      multiset(ChecksumErrors(a, env))[e], multiset(IsoUrlErrors(ChecksumNormalised(a), env))[e]);
  }

  /** The problems of every template-loop order are counted by Reported. */
  lemma ProblemsCounted(c: Config, env: Env, order: seq<TemplateField>)
    requires IsIterationOrder(order)
    ensures Counted(Problems(c, env, order), c, env)
  {
    forall e ensures multiset(Problems(c, env, order))[e] == Reported(c, env, e) {
      ProblemsExact(c, env, order, e);
    }
  }
}

/** The configuration a Prepare that gets past decoding leaves behind. */
module PreparedConfig {
  import opened Externals
  import opened Text
  import opened BuildConfig
  import opened Validation
  import opened PrepareProperties

  /** The port bounds end up defaulted and otherwise as decoded. */
  lemma PreparedPorts(c: Config, env: Env)
    ensures var r := Prepared(c, env);
      && r.httpPortMin == HttpMin(c) && r.httpPortMax == HttpMax(c)
      && r.vncPortMin == VncMin(c) && r.vncPortMax == VncMax(c)
  {
    PlatformStageAgrees(c, env);
  }

  /** The defaults, as numbers: a zero bound takes its default and any other
      bound is kept. */
  lemma PortDefaults(c: Config)
    ensures HttpMin(c) == (if c.httpPortMin == 0 then 8000 else c.httpPortMin)
    ensures HttpMax(c) == (if c.httpPortMax == 0 then 9000 else c.httpPortMax)
    ensures VncMin(c) == (if c.vncPortMin == 0 then 5900 else c.vncPortMin)
    ensures VncMax(c) == (if c.vncPortMax == 0 then 6000 else c.vncPortMax)
    ensures HttpMin(c) != 0 && HttpMax(c) != 0 && VncMin(c) != 0 && VncMax(c) != 0
  {
  }

  /** Every templated field other than the two checksum fields holds what
      the processor returned for it. */
  lemma PreparedTemplatedFields(c: Config, env: Env)
    ensures forall f :: f != IsoChecksum && f != IsoChecksumType ==> Get(Prepared(c, env), f) == Value(c, env, f)
  {
    CheckedAgrees(c, env);
    forall f | f != IsoChecksum && f != IsoChecksumType ensures Get(Prepared(c, env), f) == Value(c, env, f) {
      LaterStagesKeep(Checked(c, env), env, f);
    }
  }

  /** The steps after the field checks write no templated field but the two
      checksum fields. */
  lemma LaterStagesKeep(a: Config, env: Env, f: TemplateField)
    requires f != IsoChecksum && f != IsoChecksumType
    ensures Get(UrlsNormalised(UrlsFolded(ChecksumNormalised(WithPlatformDefaults(a))), env), f) == Get(a, f)
  {
    var n := ChecksumNormalised(WithPlatformDefaults(a));
    assert Get(n, f) == Get(a, f);
  }

  /** The boot commands are validated, never rewritten. */
  lemma PreparedBootCommand(c: Config, env: Env)
    ensures Prepared(c, env).bootCommand == c.bootCommand
  {
    CheckedAgrees(c, env);
  }

  /** Both durations hold what the parser returned for their templated text. */
  lemma PreparedDurations(c: Config, env: Env)
    ensures Prepared(c, env).bootWait == env.parseDuration(Value(c, env, BootWait)).value
    ensures Prepared(c, env).sshWaitTimeout == env.parseDuration(Value(c, env, SshWaitTimeout)).value
  {
    DurationsAgree(c, env);
  }

  /** An empty map of platform flags becomes exactly the six defaults; any
      other map is kept without merging. */
  lemma PreparedPlatformArgs(c: Config, env: Env)
    ensures Prepared(c, env).platformArgs ==
            if |c.platformArgs| == 0 then DefaultPlatformArgs else c.platformArgs
  {
    CheckedAgrees(c, env);
    var d := Defaulted(c);
    assert Untemplated(Templated(d, env)) == Untemplated(d);
  }

  /** The six default platform flags and their values. */
  lemma DefaultPlatformArgsExact()
    ensures DefaultPlatformArgs.Keys == {"viridian", "nx", "pae", "apic", "timeoffset", "acpi"}
    ensures |DefaultPlatformArgs| == 6
    ensures DefaultPlatformArgs["viridian"] == "false" && DefaultPlatformArgs["nx"] == "true"
    ensures DefaultPlatformArgs["pae"] == "true" && DefaultPlatformArgs["apic"] == "true"
    ensures DefaultPlatformArgs["timeoffset"] == "0" && DefaultPlatformArgs["acpi"] == "1"
  {
    assert |DefaultPlatformArgs.Keys| == 6;
  }

  /** A non-empty checksum type ends up lower-cased. Unless it is then
      "none", a non-empty checksum is lower-cased too; otherwise the checksum
      is left as templated. */
  lemma PreparedChecksum(c: Config, env: Env)
    ensures var ty := Value(c, env, IsoChecksumType);
      var cs := Value(c, env, IsoChecksum);
      && Prepared(c, env).isoChecksumType == (if |ty| == 0 then ty else ToLower(ty))
      && Prepared(c, env).isoChecksum == (if ChecksumChecked(c, env) && |cs| != 0 then ToLower(cs) else cs)
  {
    PlatformStageAgrees(c, env);
  }

  /** The URL list ends up as the folded list with every entry rewritten by
      DownloadableURL: one entry, from `isoURL`, when that is set, and as
      many entries as were decoded otherwise. */
  lemma PreparedIsoUrls(c: Config, env: Env)
    ensures Prepared(c, env).isoUrls == Downloadable(IsoUrlList(c), env)
    ensures |c.isoURL| != 0 ==> Prepared(c, env).isoUrls == [env.downloadableURL(c.isoURL).value]
    ensures |c.isoURL| == 0 ==> |Prepared(c, env).isoUrls| == |c.isoUrls|
  {
    UrlStageAgrees(c, env);
    var r := Prepared(c, env).isoUrls;
    if |c.isoURL| != 0 {
      assert r == [env.downloadableURL(c.isoURL).value];
    }
  }
}

/** Which problems a Prepare that gets past decoding reports, as the
    properties each check promises, for any list counted by Reported: by
    ProblemsCounted, the problems of every template-loop order. */
module ReportedProblems {
  import opened Externals
  import opened Text
  import opened BuildConfig
  import opened Errors
  import opened Validation
  import opened PrepareProperties

  /** Each range is reported at most once, and exactly when its defaulted
      minimum exceeds its defaulted maximum; the two are independent. */
  lemma PortRangesReported(problems: seq<Error>, c: Config, env: Env)
    requires Counted(problems, c, env)
    ensures multiset(problems)[HttpPortRange] == 1 <==> HttpMin(c) > HttpMax(c)
    ensures multiset(problems)[HttpPortRange] <= 1
    ensures multiset(problems)[VncPortRange] == 1 <==> VncMin(c) > VncMax(c)
    ensures multiset(problems)[VncPortRange] <= 1
  {
    assert multiset(problems)[HttpPortRange] == Reported(c, env, HttpPortRange);
    assert multiset(problems)[VncPortRange] == Reported(c, env, VncPortRange);
  }

  /** A minimum set above the default maximum, with the maximum left unset,
      is an inverted range. */
  lemma MinAboveDefaultMax(problems: seq<Error>, c: Config, env: Env)
    requires Counted(problems, c, env)
    ensures c.httpPortMax == 0 && c.httpPortMin > DefaultHttpPortMax ==> HttpPortRange in problems
    ensures c.vncPortMax == 0 && c.vncPortMin > DefaultVncPortMax ==> VncPortRange in problems
  {
    assert multiset(problems)[HttpPortRange] == Reported(c, env, HttpPortRange);
    assert multiset(problems)[VncPortRange] == Reported(c, env, VncPortRange);
  }

  /** Every required field that is empty after templating is reported, once,
      however many others are empty too; no other field is reported missing. */
  lemma RequiredFieldsReported(problems: seq<Error>, c: Config, env: Env)
    requires Counted(problems, c, env)
    ensures forall f :: multiset(problems)[Missing(f)] ==
                        if f in RequiredFields && |Value(c, env, f)| == 0 then 1 else 0
  {
    forall f ensures multiset(problems)[Missing(f)] ==
                     if f in RequiredFields && |Value(c, env, f)| == 0 then 1 else 0 {
      assert multiset(problems)[Missing(f)] == Reported(c, env, Missing(f));
    }
  }

  /** A "none" checksum type, in any case, draws no checksum problem at all
      and leaves the checksum as templated. */
  lemma NoneChecksumIsQuiet(problems: seq<Error>, c: Config, env: Env)
    requires Counted(problems, c, env)
    requires ToLower(Value(c, env, IsoChecksumType)) == "none"
    ensures MissingChecksumType !in problems
    ensures MissingChecksum !in problems
    ensures forall t :: UnsupportedChecksumType(t) !in problems
    ensures Prepared(c, env).isoChecksum == Value(c, env, IsoChecksum)
  {
    assert multiset(problems)[MissingChecksumType] == Reported(c, env, MissingChecksumType);
    assert multiset(problems)[MissingChecksum] == Reported(c, env, MissingChecksum);
    forall t ensures UnsupportedChecksumType(t) !in problems {
      assert multiset(problems)[UnsupportedChecksumType(t)] == Reported(c, env, UnsupportedChecksumType(t));
    }
    PlatformStageAgrees(c, env);
  }

  /** Any other checksum type: an empty one is the one checksum problem;
      otherwise an empty checksum and a type with no known hash are each
      reported once. */
  lemma ChecksumProblems(problems: seq<Error>, c: Config, env: Env)
    requires Counted(problems, c, env)
    ensures var ty := Value(c, env, IsoChecksumType);
      && (multiset(problems)[MissingChecksumType] == if |ty| == 0 then 1 else 0)
      && (|ty| == 0 ==> MissingChecksum !in problems && forall t :: UnsupportedChecksumType(t) !in problems)
      && (ChecksumChecked(c, env) ==>
            && (multiset(problems)[MissingChecksum] == if |Value(c, env, IsoChecksum)| == 0 then 1 else 0)
            && (multiset(problems)[UnsupportedChecksumType(ToLower(ty))] ==
                if env.hashKnown(ToLower(ty)) then 0 else 1))
  {
    var ty := Value(c, env, IsoChecksumType);
    assert multiset(problems)[MissingChecksumType] == Reported(c, env, MissingChecksumType);
    assert multiset(problems)[MissingChecksum] == Reported(c, env, MissingChecksum);
    assert multiset(problems)[UnsupportedChecksumType(ToLower(ty))] ==
           Reported(c, env, UnsupportedChecksumType(ToLower(ty)));
    forall t | |ty| == 0 ensures UnsupportedChecksumType(t) !in problems {
      assert multiset(problems)[UnsupportedChecksumType(t)] == Reported(c, env, UnsupportedChecksumType(t));
    }
  }

  /** No key path, no key problem; otherwise at most one, carrying the stat
      error, or else the key-parsing error. */
  lemma SshKeyAtMostOne(problems: seq<Error>, c: Config, env: Env)
    requires Counted(problems, c, env)
    ensures var path := Value(c, env, SshKeyPath);
      && (|path| == 0 ==> forall d :: SshKeyInvalid(d) !in problems)
      && (forall d :: multiset(problems)[SshKeyInvalid(d)] <= 1)
      && (forall d1, d2 :: SshKeyInvalid(d1) in problems && SshKeyInvalid(d2) in problems ==> d1 == d2)
      && (|path| != 0 && env.stat(path).Some? ==> SshKeyInvalid(env.stat(path).value) in problems)
  {
    forall d ensures multiset(problems)[SshKeyInvalid(d)] == Reported(c, env, SshKeyInvalid(d)) {
    }
  }

  /** Each boot command that fails validation is reported once, tagged with
      its index; each templated field the processor rejects is reported once,
      with the processor's error. */
  lemma EntriesReported(problems: seq<Error>, c: Config, env: Env)
    requires Counted(problems, c, env)
    ensures forall i: nat, d :: multiset(problems)[EntryInvalid(BootCommandEntry, i, d)] ==
              if i < |c.bootCommand| && env.validate(c.bootCommand[i]) == Some(d) then 1 else 0
    ensures forall f, d :: multiset(problems)[TemplateInvalid(f, d)] ==
              if env.process(Raw(c, f)).err == Some(d) then 1 else 0
  {
    forall i: nat, d ensures multiset(problems)[EntryInvalid(BootCommandEntry, i, d)] ==
              if i < |c.bootCommand| && env.validate(c.bootCommand[i]) == Some(d) then 1 else 0 {
      assert multiset(problems)[EntryInvalid(BootCommandEntry, i, d)] ==
             Reported(c, env, EntryInvalid(BootCommandEntry, i, d));
    }
    forall f, d ensures multiset(problems)[TemplateInvalid(f, d)] ==
              if env.process(Raw(c, f)).err == Some(d) then 1 else 0 {
      assert multiset(problems)[TemplateInvalid(f, d)] == Reported(c, env, TemplateInvalid(f, d));
    }
  }

  /** An empty `isoURL` is reported once; each entry of the folded list that
      DownloadableURL rejects is reported once, with its index. */
  lemma IsoUrlsReported(problems: seq<Error>, c: Config, env: Env)
    requires Counted(problems, c, env)
    ensures multiset(problems)[MissingIsoUrl] == if |c.isoURL| == 0 then 1 else 0
    ensures forall i: nat, d :: multiset(problems)[EntryInvalid(IsoUrlEntry, i, d)] ==
              if i < |IsoUrlList(c)| && env.downloadableURL(IsoUrlList(c)[i]).err == Some(d) then 1 else 0
  {
    ReportedMissingIsoUrl(c, env);
    assert multiset(problems)[MissingIsoUrl] == Reported(c, env, MissingIsoUrl);
    forall i: nat, d ensures multiset(problems)[EntryInvalid(IsoUrlEntry, i, d)] ==
              if i < |IsoUrlList(c)| && env.downloadableURL(IsoUrlList(c)[i]).err == Some(d) then 1 else 0 {
      ReportedIsoUrlEntry(c, env, i, d);
      assert multiset(problems)[EntryInvalid(IsoUrlEntry, i, d)] ==
             Reported(c, env, EntryInvalid(IsoUrlEntry, i, d));
    }
  }

  /** The order the template loop takes changes at most the order of the
      problems, never which ones or how many. */
  lemma ProblemsOrderFree(c: Config, env: Env, order1: seq<TemplateField>, order2: seq<TemplateField>)
    requires IsIterationOrder(order1) && IsIterationOrder(order2)
    ensures multiset(Problems(c, env, order1)) == multiset(Problems(c, env, order2))
  {
    ProblemsCounted(c, env, order1);
    ProblemsCounted(c, env, order2);
    CountedAlike(Problems(c, env, order1), Problems(c, env, order2), c, env);
  }

  /** Two lists counted by Reported hold the same problems. */
  lemma CountedAlike(problems1: seq<Error>, problems2: seq<Error>, c: Config, env: Env)
    requires Counted(problems1, c, env) && Counted(problems2, c, env)
    ensures multiset(problems1) == multiset(problems2)
  {
    assert forall e :: multiset(problems1)[e] == multiset(problems2)[e];
  }

  /** What a configuration must satisfy for Prepare to report nothing
      beyond unused keys, written from the checks' conditions. */
  ghost predicate Clean(c: Config, env: Env) {
    && CleanTemplates(c, env) && CleanDurations(c, env) && CleanBootCommand(c, env)
    && CleanFields(c, env) && CleanPorts(c) && CleanChecksum(c, env) && CleanIsoUrl(c, env)
  }

  /** Every templated field processes without error. */
  ghost predicate CleanTemplates(c: Config, env: Env) {
    forall f :: env.process(Raw(c, f)).err.None?
  }

  /** Both durations parse. */
  predicate CleanDurations(c: Config, env: Env) {
    && env.parseDuration(Value(c, env, BootWait)).err.None?
    && env.parseDuration(Value(c, env, SshWaitTimeout)).err.None?
  }

  /** Every boot command validates. */
  predicate CleanBootCommand(c: Config, env: Env) {
    forall i :: 0 <= i < |c.bootCommand| ==> env.validate(c.bootCommand[i]).None?
  }

  /** Every required field is set and the ssh key, if named, can be read. */
  predicate CleanFields(c: Config, env: Env) {
    var path := Value(c, env, SshKeyPath);
    && (forall f :: f in RequiredFields ==> |Value(c, env, f)| != 0)
    && (|path| == 0 || (env.stat(path).None? && env.fileSigner(path).None?))
  }

  /** Both port ranges are in order. */
  predicate CleanPorts(c: Config) {
    HttpMin(c) <= HttpMax(c) && VncMin(c) <= VncMax(c)
  }

  /** A checksum type is given, and it is "none" or a known hash with a checksum. */
  predicate CleanChecksum(c: Config, env: Env) {
    var ty := Value(c, env, IsoChecksumType);
    && |ty| != 0
    && (ToLower(ty) == "none" || (|Value(c, env, IsoChecksum)| != 0 && env.hashKnown(ToLower(ty))))
  }

  /** The ISO URL is set and downloadable. */
  predicate CleanIsoUrl(c: Config, env: Env) {
    |c.isoURL| != 0 && env.downloadableURL(c.isoURL).err.None?
  }

  /** A clean configuration draws no problem of any kind. */
  lemma CleanReportsNothing(c: Config, env: Env, e: Error)
    requires Clean(c, env)
    ensures Reported(c, env, e) == 0
  {
    match e {
      case EntryInvalid(list, i, d) =>
        if list == IsoUrlEntry {
          ReportedIsoUrlEntry(c, env, i, d);
        }
      case MissingChecksumType =>
      case MissingChecksum =>
      case UnsupportedChecksumType(_) =>
      case _ =>
    }
  }

  /** A configuration that draws no problem is clean. */
  lemma NothingReportedIsClean(c: Config, env: Env)
    requires forall e :: Reported(c, env, e) == 0
    ensures Clean(c, env)
  {
    NothingReportedTemplates(c, env);
    NothingReportedDurations(c, env);
    NothingReportedBootCommand(c, env);
    NothingReportedFields(c, env);
    NothingReportedPorts(c, env);
    NothingReportedChecksum(c, env);
    NothingReportedIsoUrl(c, env);
  }

  /** The message an outcome carries, or "" when there is none. */
  function Detail(outcome: Option<string>): string {
    if outcome.Some? then outcome.value else ""
  }

  /** No template problem: every field processes. */
  lemma NothingReportedTemplates(c: Config, env: Env)
    requires forall e :: Reported(c, env, e) == 0
    ensures CleanTemplates(c, env)
  {
    forall f ensures env.process(Raw(c, f)).err.None? {
      var outcome := env.process(Raw(c, f)).err;
      assert Reported(c, env, TemplateInvalid(f, Detail(outcome))) == 0;
    }
  }

  /** No duration problem: both durations parse. */
  lemma NothingReportedDurations(c: Config, env: Env)
    requires forall e :: Reported(c, env, e) == 0
    ensures CleanDurations(c, env)
  {
    assert Reported(c, env, BootWaitUnparsable) == 0;
    var timeout := env.parseDuration(Value(c, env, SshWaitTimeout)).err;
    assert Reported(c, env, SshWaitTimeoutUnparsable(Detail(timeout))) == 0;
  }

  /** No boot command problem: every command validates. */
  lemma NothingReportedBootCommand(c: Config, env: Env)
    requires forall e :: Reported(c, env, e) == 0
    ensures CleanBootCommand(c, env)
  {
    forall i | 0 <= i < |c.bootCommand| ensures env.validate(c.bootCommand[i]).None? {
      var outcome := env.validate(c.bootCommand[i]);
      assert Reported(c, env, EntryInvalid(BootCommandEntry, i, Detail(outcome))) == 0;
    }
  }

  /** No field problem: every required field is set and the key, if named, is readable. */
  lemma NothingReportedFields(c: Config, env: Env)
    requires forall e :: Reported(c, env, e) == 0
    ensures CleanFields(c, env)
  {
    forall f | f in RequiredFields ensures |Value(c, env, f)| != 0 {
      assert Reported(c, env, Missing(f)) == 0;
    }
    var path := Value(c, env, SshKeyPath);
    assert Reported(c, env, SshKeyInvalid(Detail(env.stat(path)))) == 0;
    assert Reported(c, env, SshKeyInvalid(Detail(env.fileSigner(path)))) == 0;
  }

  /** No range problem: both ranges are in order. */
  lemma NothingReportedPorts(c: Config, env: Env)
    requires forall e :: Reported(c, env, e) == 0
    ensures CleanPorts(c)
  {
    assert Reported(c, env, HttpPortRange) == 0;
    assert Reported(c, env, VncPortRange) == 0;
  }

  /** No checksum problem: the type is given, and is "none" or a known hash with a checksum. */
  lemma NothingReportedChecksum(c: Config, env: Env)
    requires forall e :: Reported(c, env, e) == 0
    ensures CleanChecksum(c, env)
  {
    assert Reported(c, env, MissingChecksumType) == 0;
    assert Reported(c, env, MissingChecksum) == 0;
    var ty := Value(c, env, IsoChecksumType);
    assert Reported(c, env, UnsupportedChecksumType(ToLower(ty))) == 0;
  }

  /** No URL problem: the ISO URL is set and downloadable. */
  lemma NothingReportedIsoUrl(c: Config, env: Env)
    requires forall e :: Reported(c, env, e) == 0
    ensures CleanIsoUrl(c, env)
  {
    ReportedMissingIsoUrl(c, env);
    assert Reported(c, env, MissingIsoUrl) == 0;
    var url := env.downloadableURL(c.isoURL).err;
    ReportedIsoUrlEntry(c, env, 0, Detail(url));
    assert Reported(c, env, EntryInvalid(IsoUrlEntry, 0, Detail(url))) == 0;
  }

  /** Prepare reports no problem beyond unused keys exactly when the
      configuration is clean. */
  lemma NoProblemsIffClean(problems: seq<Error>, c: Config, env: Env)
    requires Counted(problems, c, env)
    ensures problems == [] <==> Clean(c, env)
  {
    if problems == [] {
      forall e ensures Reported(c, env, e) == 0 {
        assert multiset(problems)[e] == 0;
      }
      NothingReportedIsClean(c, env);
    } else {
      assert multiset(problems)[problems[0]] > 0;
      if Clean(c, env) {
        CleanReportsNothing(c, env, problems[0]);
      }
    }
  }
}
