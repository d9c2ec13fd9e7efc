/** What each stage of Builder.Prepare does to the configuration and which
    problems it reports, as functions of the configuration it starts from. */
module Validation {
  import opened Externals
  import opened Text
  import opened BuildConfig
  import opened Errors

  const DefaultVncPortMin: uint := 5900
  const DefaultVncPortMax: uint := 6000
  const DefaultHttpPortMin: uint := 8000
  const DefaultHttpPortMax: uint := 9000
  const DefaultBootWait: string := "5s"
  const DefaultSshWaitTimeout: string := "200m"

  /** The output directory used when none is given: "output-<build name>". */
  function DefaultOutputDir(buildName: string): (r: string)
    ensures |r| == 7 + |buildName| && r[..7] == "output-" && r[7..] == buildName
  {
    "output-" + buildName
  }

  /** The platform flags used when the caller gives none at all. */
  const DefaultPlatformArgs: map<string, string> :=
    map["viridian" := "false", "nx" := "true", "pae" := "true",
        "apic" := "true", "timeoffset" := "0", "acpi" := "1"]

  // ---------------------------------------------------------------- defaults

  /** The defaulting step of Prepare. */
  function Defaulted(c: Config): Config {
    c.(vncPortMin := if c.vncPortMin == 0 then DefaultVncPortMin else c.vncPortMin,
       vncPortMax := if c.vncPortMax == 0 then DefaultVncPortMax else c.vncPortMax,
       rawBootWait := if |c.rawBootWait| == 0 then DefaultBootWait else c.rawBootWait,
       httpPortMin := if c.httpPortMin == 0 then DefaultHttpPortMin else c.httpPortMin,
       httpPortMax := if c.httpPortMax == 0 then DefaultHttpPortMax else c.httpPortMax,
       rawSshWaitTimeout := if |c.rawSshWaitTimeout| == 0 then DefaultSshWaitTimeout else c.rawSshWaitTimeout,
       outputDir := if |c.outputDir| == 0 then DefaultOutputDir(c.packerBuildName) else c.outputDir)
  }

  /** Zero port bounds and empty boot-wait, ssh-wait-timeout and output
      directory take their defaults; a value already set is kept; nothing
      else changes; and none of the seven is zero or empty afterwards. */
  lemma DefaultsApplied(c: Config)
    ensures var r := Defaulted(c);
      && r.vncPortMin != 0 && r.vncPortMax != 0 && r.httpPortMin != 0 && r.httpPortMax != 0
      && |r.rawBootWait| != 0 && |r.rawSshWaitTimeout| != 0 && |r.outputDir| != 0
      && (c.vncPortMin == 0 ==> r.vncPortMin == DefaultVncPortMin)
      && (c.vncPortMax == 0 ==> r.vncPortMax == DefaultVncPortMax)
      && (c.httpPortMin == 0 ==> r.httpPortMin == DefaultHttpPortMin)
      && (c.httpPortMax == 0 ==> r.httpPortMax == DefaultHttpPortMax)
      && (|c.rawBootWait| == 0 ==> r.rawBootWait == DefaultBootWait)
      && (|c.rawSshWaitTimeout| == 0 ==> r.rawSshWaitTimeout == DefaultSshWaitTimeout)
      && (|c.outputDir| == 0 ==> r.outputDir == DefaultOutputDir(c.packerBuildName))
      && (c.vncPortMin != 0 ==> r.vncPortMin == c.vncPortMin)
      && (c.vncPortMax != 0 ==> r.vncPortMax == c.vncPortMax)
      && (c.httpPortMin != 0 ==> r.httpPortMin == c.httpPortMin)
      && (c.httpPortMax != 0 ==> r.httpPortMax == c.httpPortMax)
      && (|c.rawBootWait| != 0 ==> r.rawBootWait == c.rawBootWait)
      && (|c.rawSshWaitTimeout| != 0 ==> r.rawSshWaitTimeout == c.rawSshWaitTimeout)
      && (|c.outputDir| != 0 ==> r.outputDir == c.outputDir)
      && r.(vncPortMin := c.vncPortMin, vncPortMax := c.vncPortMax,
            httpPortMin := c.httpPortMin, httpPortMax := c.httpPortMax,
            rawBootWait := c.rawBootWait, rawSshWaitTimeout := c.rawSshWaitTimeout,
            outputDir := c.outputDir) == c
  {
  }

  // --------------------------------------------------------------- templates

  /** Every templated field replaced by what the processor returns for it
      (also when it reports an error); every other field kept. */
  function Templated(c: Config, env: Env): (r: Config)
    ensures forall f :: Get(r, f) == env.process(Get(c, f)).value
    ensures Untemplated(r) == Untemplated(c)
  {
    c.(username := env.process(c.username).value,
       password := env.process(c.password).value,
       hostIp := env.process(c.hostIp).value,
       isoUrl := env.process(c.isoUrl).value,
       instanceName := env.process(c.instanceName).value,
       rootDiskSize := env.process(c.rootDiskSize).value,
       cloneTemplate := env.process(c.cloneTemplate).value,
       isoUuid := env.process(c.isoUuid).value,
       srUuid := env.process(c.srUuid).value,
       networkUuid := env.process(c.networkUuid).value,
       rawBootWait := env.process(c.rawBootWait).value,
       isoChecksum := env.process(c.isoChecksum).value,
       isoChecksumType := env.process(c.isoChecksumType).value,
       httpDir := env.process(c.httpDir).value,
       localIp := env.process(c.localIp).value,
       rawSshWaitTimeout := env.process(c.rawSshWaitTimeout).value,
       sshUser := env.process(c.sshUser).value,
       sshPassword := env.process(c.sshPassword).value,
       sshKeyPath := env.process(c.sshKeyPath).value,
       outputDir := env.process(c.outputDir).value)
  }

  /** The configuration once the template loop has visited `order[..n]`,
      each visit writing the processed value back through the field's pointer. */
  function TemplatedUpTo(c: Config, env: Env, order: seq<TemplateField>, n: nat): Config
    requires n <= |order|
  {
    if n == 0 then c
    else
      var prev := TemplatedUpTo(c, env, order, n - 1);
      With(prev, order[n - 1], env.process(Get(prev, order[n - 1])).value)
  }

  /** Visiting each field at most once, the loop has processed exactly the
      visited fields, each from its original value. */
  lemma {:induction false} TemplatedUpToGet(c: Config, env: Env, order: seq<TemplateField>, n: nat, f: TemplateField)
    requires n <= |order|
    requires forall i, j :: 0 <= i < j < |order| ==> order[i] != order[j]
    ensures Get(TemplatedUpTo(c, env, order, n), f) ==
            if f in order[..n] then env.process(Get(c, f)).value else Get(c, f)
  {
    if n > 0 {
      var g := order[n - 1];
      PrefixGrows(order, n - 1);
      TemplatedUpToGet(c, env, order, n - 1, f);
      TemplatedUpToStep(c, env, order, n, f);
      if f == g {
        assert g !in order[..n - 1];
      }
    }
  }

  /** One visit writes the visited field and no other. */
  lemma TemplatedUpToStep(c: Config, env: Env, order: seq<TemplateField>, n: nat, f: TemplateField)
    requires 0 < n <= |order|
    ensures var prev := TemplatedUpTo(c, env, order, n - 1);
            Get(TemplatedUpTo(c, env, order, n), f) ==
            if f == order[n - 1] then env.process(Get(prev, f)).value else Get(prev, f)
  {
  }

  /** The template loop touches no field but the templated ones. */
  lemma {:induction false} TemplatedUpToKeeps(c: Config, env: Env, order: seq<TemplateField>, n: nat)
    requires n <= |order|
    ensures Untemplated(TemplatedUpTo(c, env, order, n)) == Untemplated(c)
  {
    if n > 0 {
      TemplatedUpToKeeps(c, env, order, n - 1);
    }
  }

  /** Once every field has been visited once, in any order, the loop has
      produced `Templated`. */
  lemma TemplatedInAnyOrder(c: Config, env: Env, order: seq<TemplateField>)
    requires IsIterationOrder(order)
    ensures TemplatedUpTo(c, env, order, |order|) == Templated(c, env)
  {
    var r := TemplatedUpTo(c, env, order, |order|);
    assert order[..|order|] == order;
    forall f ensures Get(r, f) == Get(Templated(c, env), f) {
      TemplatedUpToGet(c, env, order, |order|, f);
    }
    TemplatedUpToKeeps(c, env, order, |order|);
    SameConfig(r, Templated(c, env));
  }

  /** The problem processing field `f` of `c` reports, if any. */
  function TemplateError(c: Config, env: Env, f: TemplateField): seq<Error> {
    match env.process(Get(c, f)).err
    case Some(d) => [TemplateInvalid(f, d)]
    case None => []
  }

  /** The problems of the template loop when it visits the fields in `order`. */
  function TemplateErrors(c: Config, env: Env, order: seq<TemplateField>): (r: seq<Error>)
    ensures |r| <= |order|
    decreases |order|
  {
    if order == [] then []
    else
      var n := |order| - 1;
      TemplateErrors(c, env, order[..n]) + TemplateError(c, env, order[n])
  }

  /** Visiting each field once, the loop reports each failing field exactly
      once, with the processor's error, and nothing else. */
  lemma {:induction false} TemplateErrorsExact(c: Config, env: Env, order: seq<TemplateField>, e: Error)
    requires forall i, j :: 0 <= i < j < |order| ==> order[i] != order[j]
    ensures multiset(TemplateErrors(c, env, order))[e] ==
            if e.TemplateInvalid? && e.field in order && env.process(Get(c, e.field)).err == Some(e.detail)
            then 1 else 0
    decreases |order|
  {
    if order != [] {
      var n := |order| - 1;
      TemplateErrorsExact(c, env, order[..n], e);
      assert order == order[..n] + [order[n]];
      LastTemplateCount(c, env, order[n], e);
    }
  }

  /** The problem one field contributes, counted. */
  lemma LastTemplateCount(c: Config, env: Env, f: TemplateField, e: Error)
    ensures multiset(TemplateError(c, env, f))[e] ==
            if e.TemplateInvalid? && e.field == f && env.process(Get(c, f)).err == Some(e.detail) then 1 else 0
  {
  }

  /** Go leaves the order of the template loop unspecified: any two orders
      report the same problems, at most rearranged. */
  lemma TemplateErrorsOrderFree(c: Config, env: Env, order1: seq<TemplateField>, order2: seq<TemplateField>)
    requires IsIterationOrder(order1) && IsIterationOrder(order2)
    ensures multiset(TemplateErrors(c, env, order1)) == multiset(TemplateErrors(c, env, order2))
  {
    forall e ensures multiset(TemplateErrors(c, env, order1))[e] == multiset(TemplateErrors(c, env, order2))[e] {
      TemplateErrorsExact(c, env, order1, e);
      TemplateErrorsExact(c, env, order2, e);
    }
  }

  // --------------------------------------------------------------- durations

  /** The two parsed durations, assigned whatever ParseDuration returns. */
  function Parsed(c: Config, env: Env): (r: Config)
    ensures r.(bootWait := c.bootWait, sshWaitTimeout := c.sshWaitTimeout) == c
  {
    c.(bootWait := env.parseDuration(c.rawBootWait).value,
       sshWaitTimeout := env.parseDuration(c.rawSshWaitTimeout).value)
  }

  /** One problem per duration that does not parse. */
  function DurationErrors(c: Config, env: Env): (r: seq<Error>)
    ensures BootWaitUnparsable in r <==> env.parseDuration(c.rawBootWait).err.Some?
    ensures (exists d :: SshWaitTimeoutUnparsable(d) in r) <==> env.parseDuration(c.rawSshWaitTimeout).err.Some?
    ensures |r| <= 2
  {
    (if env.parseDuration(c.rawBootWait).err.Some? then [BootWaitUnparsable] else [])
    + (match env.parseDuration(c.rawSshWaitTimeout).err
       case Some(d) => [SshWaitTimeoutUnparsable(d)]
       case None => [])
  }

  /** The duration problems, one by one: the boot wait once when it does not
      parse, and the ssh wait timeout once, with the parser's error, when it
      does not parse; nothing else. */
  lemma DurationErrorsExact(c: Config, env: Env, e: Error)
    ensures multiset(DurationErrors(c, env))[e] ==
            if e == BootWaitUnparsable then (if env.parseDuration(c.rawBootWait).err.Some? then 1 else 0)
            else if e.SshWaitTimeoutUnparsable? then
              (if env.parseDuration(c.rawSshWaitTimeout).err == Some(e.detail) then 1 else 0)
            else 0
  {
  }

  // ---------------------------------------------------- required fields, key

  /** The problem an empty required field reports. */
  function Require(value: string, f: TemplateField): seq<Error> {
    if |value| == 0 then [Missing(f)] else []
  }

  /** No path, no problem; otherwise at most one: the stat failure, or else
      the key-parsing failure. */
  function SshKeyErrors(path: string, env: Env): seq<Error> {
    if |path| == 0 then []
    else match env.stat(path)
      case Some(d) => [SshKeyInvalid(d)]
      case None =>
        match env.fileSigner(path)
        case Some(d) => [SshKeyInvalid(d)]
        case None => []
  }

  /** One of the checks that follow the template pass: a required field, or
      the ssh key path. */
  datatype FieldCheck = RequireField(field: TemplateField) | CheckSshKey

  /** The checks in the source's order: the ssh user, the ssh key, then the
      fields that identify the host, the instance and the network. */
  function FieldChecks(): seq<FieldCheck> {
    [RequireField(SshUsername), CheckSshKey, RequireField(Username),
     RequireField(Password), RequireField(HostIp), RequireField(InstanceName),
     RequireField(RootDiskSize), RequireField(CloneTemplate), RequireField(IsoUuid),
     RequireField(SrUuid), RequireField(NetworkUuid), RequireField(LocalIp)]
  }

  /** The problems one check reports. */
  function CheckErrors(c: Config, env: Env, check: FieldCheck): seq<Error> {
    match check
    case RequireField(f) => Require(Get(c, f), f)
    case CheckSshKey => SshKeyErrors(c.sshKeyPath, env)
  }

  /** The checks of `c` under `env`, as one function of the check. */
  function Checker(c: Config, env: Env): FieldCheck -> seq<Error> {
    check => CheckErrors(c, env, check)
  }

  /** The problems of running the first `n` of `checks` one after the
      other with `run`; none stops the ones after it. */
  function RunChecks(run: FieldCheck -> seq<Error>, checks: seq<FieldCheck>, n: nat): seq<Error>
    requires n <= |checks|
  {
    if n == 0 then []
    else RunChecks(run, checks, n - 1) + run(checks[n - 1])
  }

  /** The problems of the checks of the ssh user, the ssh key and the other
      required fields. */
  function FieldErrors(c: Config, env: Env): seq<Error> {
    RunChecks(Checker(c, env), FieldChecks(), |FieldChecks()|)
  }

  /** The ssh key problem with detail `d` is reported, once, exactly when
      the path is set and stat fails with `d`, or stat succeeds and the key
      cannot be parsed, with `d`. */
  lemma SshKeyErrorsExact(path: string, env: Env, e: Error)
    ensures multiset(SshKeyErrors(path, env))[e] ==
            if e.SshKeyInvalid? && |path| != 0
               && (env.stat(path) == Some(e.detail)
                   || (env.stat(path).None? && env.fileSigner(path) == Some(e.detail)))
            then 1 else 0
  {
  }

  /** No path, no problem; otherwise at most one, reported exactly when stat
      or the key parser fails, and the stat failure takes precedence. */
  lemma SshKeyErrorsShape(path: string, env: Env)
    ensures var r := SshKeyErrors(path, env);
      && (|path| == 0 ==> r == [])
      && |r| <= 1
      && (r != [] <==> |path| != 0 && (env.stat(path).Some? || env.fileSigner(path).Some?))
      && (|path| != 0 && env.stat(path).Some? ==> r == [SshKeyInvalid(env.stat(path).value)])
  {
  }

  /** What one check reports, as counts. */
  lemma CheckCount(c: Config, env: Env, check: FieldCheck, e: Error)
    ensures multiset(CheckErrors(c, env, check))[e] ==
            if e.Missing? then (if check == RequireField(e.field) && |Get(c, e.field)| == 0 then 1 else 0)
            else if e.SshKeyInvalid? && check == CheckSshKey then multiset(SshKeyErrors(c.sshKeyPath, env))[e]
            else 0
  {
    SshKeyErrorsExact(c.sshKeyPath, env, e);
  }

  /** Running the first `n` of distinct checks, where only check `x` can
      report `e`, reports `e` as often as `x` does if `x` is among them, and
      never otherwise. */
  lemma {:induction false} RunChecksExact(run: FieldCheck -> seq<Error>, checks: seq<FieldCheck>, n: nat,
                                          e: Error, x: FieldCheck)
    requires n <= |checks|
    requires forall i, j :: 0 <= i < j < |checks| ==> checks[i] != checks[j]
    requires forall check :: check != x ==> multiset(run(check))[e] == 0
    ensures multiset(RunChecks(run, checks, n))[e] == if x in checks[..n] then multiset(run(x))[e] else 0
  {
    if n != 0 {
      RunChecksExact(run, checks, n - 1, e, x);
      PrefixGrows(checks, n - 1);
      NotEarlier(checks, n - 1);
    }
  }

  /** `RunChecksExact` for the whole list. */
  lemma RunAllChecksExact(run: FieldCheck -> seq<Error>, checks: seq<FieldCheck>, e: Error, x: FieldCheck)
    requires forall i, j :: 0 <= i < j < |checks| ==> checks[i] != checks[j]
    requires forall check :: check != x ==> multiset(run(check))[e] == 0
    ensures multiset(RunChecks(run, checks, |checks|))[e] == if x in checks then multiset(run(x))[e] else 0
  {
    RunChecksExact(run, checks, |checks|, e, x);
    assert checks[..|checks|] == checks;
  }

  /** In a list without repeats, an element does not occur before its index. */
  lemma NotEarlier<T>(xs: seq<T>, k: nat)
    requires k < |xs|
    requires forall i, j :: 0 <= i < j < |xs| ==> xs[i] != xs[j]
    ensures xs[k] !in xs[..k]
  {
    forall i | 0 <= i < k ensures xs[..k][i] != xs[k] {
      assert xs[..k][i] == xs[i];
    }
  }

  /** No check is run twice. */
  lemma FieldChecksDistinct()
    ensures forall i, j :: 0 <= i < j < |FieldChecks()| ==> FieldChecks()[i] != FieldChecks()[j]
  {
  }

  /** The key is checked, and so is every required field and no other. */
  lemma FieldChecksCover(f: TemplateField)
    ensures RequireField(f) in FieldChecks() <==> f in RequiredFields
    ensures CheckSshKey in FieldChecks()
  {
  }

  /** Every required field that is empty after templating is reported
      exactly once, whatever else is missing; no other field is reported
      missing; the key problem, if any, is reported once; nothing else is
      reported. */
  lemma FieldErrorsExact(c: Config, env: Env, e: Error)
    ensures multiset(FieldErrors(c, env))[e] ==
            if e.Missing? then (if e.field in RequiredFields && |Get(c, e.field)| == 0 then 1 else 0)
            else if e.SshKeyInvalid? then multiset(SshKeyErrors(c.sshKeyPath, env))[e]
            else 0
  {
    var x := if e.Missing? then RequireField(e.field) else CheckSshKey;
    forall check | check != x ensures multiset(Checker(c, env)(check))[e] == 0 {
      CheckCount(c, env, check, e);
    }
    FieldChecksDistinct();
    RunAllChecksExact(Checker(c, env), FieldChecks(), e, x);
    CheckCount(c, env, x, e);
    FieldChecksCover(if e.Missing? then e.field else Username);
  }

  // ---------------------------------------------------------- platform flags

  /** An empty map of platform flags becomes the six defaults; a non-empty
      one is kept as it is, without merging in any default. */
  function WithPlatformDefaults(c: Config): (r: Config)
    ensures |c.platformArgs| == 0 ==> r.platformArgs == DefaultPlatformArgs
    ensures |c.platformArgs| != 0 ==> r == c
    ensures r.(platformArgs := c.platformArgs) == c
  {
    if |c.platformArgs| == 0 then c.(platformArgs := DefaultPlatformArgs) else c
  }

  // ------------------------------------------------------------- port ranges

  /** One problem per range whose minimum exceeds its maximum. */
  function PortErrors(c: Config): (r: seq<Error>)
    ensures |r| <= 2
  {
    (if c.httpPortMin > c.httpPortMax then [HttpPortRange] else [])
    + (if c.vncPortMin > c.vncPortMax then [VncPortRange] else [])
  }

  /** The range problems, one by one: each range once when its minimum
      exceeds its maximum, independently of the other; nothing else. */
  lemma PortErrorsExact(c: Config, e: Error)
    ensures multiset(PortErrors(c))[e] ==
            if e == HttpPortRange then (if c.httpPortMin > c.httpPortMax then 1 else 0)
            else if e == VncPortRange then (if c.vncPortMin > c.vncPortMax then 1 else 0)
            else 0
  {
  }

  // ---------------------------------------------------------------- checksum

  /** A non-empty checksum type is lower-cased; unless it is then "none", a
      non-empty checksum is lower-cased too. */
  function ChecksumNormalised(c: Config): (r: Config)
    ensures |c.isoChecksumType| == 0 ==> r == c
    ensures |c.isoChecksumType| != 0 ==> r.isoChecksumType == ToLower(c.isoChecksumType)
    ensures ToLower(c.isoChecksumType) == "none" ==> r.isoChecksum == c.isoChecksum
    ensures |c.isoChecksumType| != 0 && ToLower(c.isoChecksumType) != "none" ==>
              r.isoChecksum == ToLower(c.isoChecksum)
    ensures r.(isoChecksumType := c.isoChecksumType, isoChecksum := c.isoChecksum) == c
  {
    if |c.isoChecksumType| == 0 then c
    else
      var t := ToLower(c.isoChecksumType);
      if t == "none" then c.(isoChecksumType := t)
      else if |c.isoChecksum| == 0 then c.(isoChecksumType := t)
      else c.(isoChecksumType := t, isoChecksum := ToLower(c.isoChecksum))
  }

  /** An empty type is the only problem; the "none" type (in any case) is
      never a problem; any other type needs a checksum and a known hash. */
  function ChecksumErrors(c: Config, env: Env): (r: seq<Error>)
    ensures |r| <= 2
  {
    if |c.isoChecksumType| == 0 then [MissingChecksumType]
    else
      var t := ToLower(c.isoChecksumType);
      if t == "none" then []
      else
        (if |c.isoChecksum| == 0 then [MissingChecksum] else [])
        + (if !env.hashKnown(t) then [UnsupportedChecksumType(t)] else [])
  }

  /** The checksum problems, one by one: a missing type once when the type
      is empty; when the lower-cased type is neither empty nor "none", a
      missing checksum once when the checksum is empty and the lower-cased
      type once when no hash is known for it; nothing else. */
  lemma ChecksumErrorsExact(c: Config, env: Env, e: Error)
    ensures var t := ToLower(c.isoChecksumType);
      var checked := |c.isoChecksumType| != 0 && t != "none";
      multiset(ChecksumErrors(c, env))[e] ==
        if e == MissingChecksumType then (if |c.isoChecksumType| == 0 then 1 else 0)
        else if e == MissingChecksum then (if checked && |c.isoChecksum| == 0 then 1 else 0)
        else if e.UnsupportedChecksumType? then
          (if checked && !env.hashKnown(t) && e.checksumType == t then 1 else 0)
        else 0
  {
  }

  // ---------------------------------------------------------------- ISO URLs

  /** A non-empty `isoURL` replaces the list by itself alone; an empty one
      leaves the list as decoded. */
  function UrlsFolded(c: Config): (r: Config)
    ensures |c.isoURL| != 0 ==> r.isoUrls == [c.isoURL]
    ensures r.(isoUrls := c.isoUrls) == c
    ensures |c.isoURL| == 0 ==> r == c
  {
    if |c.isoURL| == 0 then c else c.(isoUrls := [c.isoURL])
  }

  /** Every entry replaced by what DownloadableURL returns for it. */
  function Downloadable(urls: seq<string>, env: Env): (r: seq<string>)
    ensures |r| == |urls|
    ensures forall i :: 0 <= i < |urls| ==> r[i] == env.downloadableURL(urls[i]).value
  {
    seq(|urls|, i requires 0 <= i < |urls| => env.downloadableURL(urls[i]).value)
  }

  /** Rewriting entry `i` extends the rewritten prefix by one. */
  lemma DownloadableStep(urls: seq<string>, i: nat, env: Env)
    requires i < |urls|
    ensures (Downloadable(urls[..i], env) + urls[i..])[i := env.downloadableURL(urls[i]).value]
            == Downloadable(urls[..i + 1], env) + urls[i + 1..]
  {
    var lhs := (Downloadable(urls[..i], env) + urls[i..])[i := env.downloadableURL(urls[i]).value];
    var rhs := Downloadable(urls[..i + 1], env) + urls[i + 1..];
    assert |lhs| == |rhs|;
    forall k | 0 <= k < |lhs| ensures lhs[k] == rhs[k] {
      if k < i {
        assert urls[..i][k] == urls[k] == urls[..i + 1][k];
      }
    }
  }

  /** The URL list rewritten entry by entry; every other field kept. */
  function UrlsNormalised(c: Config, env: Env): (r: Config)
    ensures r.(isoUrls := c.isoUrls) == c
    ensures |r.isoUrls| == |c.isoUrls|
  {
    c.(isoUrls := Downloadable(c.isoUrls, env))
  }

  /** The problem of an empty `isoURL`, if it is. */
  function MissingIsoUrlErrors(c: Config): seq<Error> {
    if |c.isoURL| == 0 then [MissingIsoUrl] else []
  }

  /** An empty `isoURL` is a problem; then each entry of the folded list that
      DownloadableURL rejects is one problem, tagged with its index. */
  function IsoUrlErrors(c: Config, env: Env): seq<Error> {
    MissingIsoUrlErrors(c) + Failures(IsoUrlEntry, UrlsFolded(c).isoUrls, UrlCheck(env))
  }

  /** The ISO URL problems, one by one: the missing `isoURL` once when it is
      empty, and each rejected entry of the folded list once, with its index
      and its error. */
  lemma IsoUrlErrorsExact(c: Config, env: Env, e: Error)
    ensures multiset(IsoUrlErrors(c, env))[e] ==
            if e == MissingIsoUrl then (if |c.isoURL| == 0 then 1 else 0)
            else if e.EntryInvalid? && e.list == IsoUrlEntry && e.index < |UrlsFolded(c).isoUrls|
                    && env.downloadableURL(UrlsFolded(c).isoUrls[e.index]).err == Some(e.detail)
            then 1 else 0
  {
    FailuresExact(IsoUrlEntry, UrlsFolded(c).isoUrls, UrlCheck(env), e);
  }

  // ------------------------------------------------------------- whole pass

  /** The configuration the required-field checks see: defaulted, templated
      and with its durations parsed. */
  function Checked(c: Config, env: Env): (r: Config)
    ensures forall f :: Get(r, f) == env.process(Get(Defaulted(c), f)).value
  {
    Parsed(Templated(Defaulted(c), env), env)
  }

  /** The configuration after a Prepare that got past decoding. */
  function Prepared(c: Config, env: Env): Config {
    var a := WithPlatformDefaults(Checked(c, env));
    UrlsNormalised(UrlsFolded(ChecksumNormalised(a)), env)
  }

  /** The problems Prepare adds to those of CheckUnusedConfig, in order,
      when the template loop visits the fields in `order`. */
  function Problems(c: Config, env: Env, order: seq<TemplateField>): seq<Error> {
    var d := Defaulted(c);
    var t := Templated(d, env);
    var p := Parsed(t, env);
    var a := WithPlatformDefaults(p);
    TemplateErrors(d, env, order) + DurationErrors(t, env)
    + Failures(BootCommandEntry, p.bootCommand, env.validate)
    + FieldErrors(p, env) + PortErrors(a) + ChecksumErrors(a, env)
    + IsoUrlErrors(ChecksumNormalised(a), env)
  }
}
