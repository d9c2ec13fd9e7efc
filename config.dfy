/** The builder's `config` record and the twenty string fields that go
    through the template processor. */
module BuildConfig {
  import opened Externals

  /** Go's `uint`, taken as 64 bits wide. */
  newtype uint = x: int | 0 <= x < 0x1_0000_0000_0000_0000

  /** The fields of the builder's `config` struct that Prepare reads or
      writes; of the embedded common.PackerConfig only the build name is
      kept. `bootWait` and `sshWaitTimeout` are not options but the parsed
      forms of `rawBootWait` and `rawSshWaitTimeout`. The source declares two
      fields under the option name `iso_url`: `isoUrl` (IsoUrl) only goes
      through the template processor, while `isoURL` (ISOUrl) is the one that
      is folded into `isoUrls`. The template object `tpl` is not a field here:
      its behaviour is the `process` and `validate` of an Env. */
  datatype Config = Config(
    packerBuildName: string,
    username: string,
    password: string,
    hostIp: string,
    isoUrl: string,
    instanceName: string,
    rootDiskSize: string,
    cloneTemplate: string,
    isoUuid: string,
    srUuid: string,
    networkUuid: string,
    vncPortMin: uint,
    vncPortMax: uint,
    bootCommand: seq<string>,
    rawBootWait: string,
    bootWait: Duration,
    sshWaitTimeout: Duration,
    isoChecksum: string,
    isoChecksumType: string,
    isoUrls: seq<string>,
    isoURL: string,
    httpDir: string,
    httpPortMin: uint,
    httpPortMax: uint,
    localIp: string,
    platformArgs: map<string, string>,
    rawSshWaitTimeout: string,
    sshPassword: string,
    sshUser: string,
    sshKeyPath: string,
    outputDir: string)

  /** The keys of the `templates` map, one per templated string field. */
  datatype TemplateField =
    | Username | Password | HostIp | IsoUrl | InstanceName | RootDiskSize
    | CloneTemplate | IsoUuid | SrUuid | NetworkUuid | BootWait | IsoChecksum
    | IsoChecksumType | HttpDirectory | LocalIp | SshWaitTimeout | SshUsername
    | SshPassword | SshKeyPath | OutputDirectory

  /** The templated fields in the order the `templates` map literal lists them. */
  const TemplateFields: seq<TemplateField> :=
    [Username, Password, HostIp, IsoUrl, InstanceName, RootDiskSize,
     CloneTemplate, IsoUuid, SrUuid, NetworkUuid, BootWait, IsoChecksum,
     IsoChecksumType, HttpDirectory, LocalIp, SshWaitTimeout, SshUsername,
     SshPassword, SshKeyPath, OutputDirectory]

  /** The fields whose emptiness after templating is an error, in the order
      they are checked. */
  const RequiredFields: seq<TemplateField> :=
    [SshUsername, Username, Password, HostIp, InstanceName, RootDiskSize,
     CloneTemplate, IsoUuid, SrUuid, NetworkUuid, LocalIp]

  /** An order in which ranging over the `templates` map can visit its keys:
      every key exactly once, in an order Go leaves unspecified. */
  predicate IsIterationOrder(order: seq<TemplateField>) {
    && (forall f :: f in order)
    && (forall i, j :: 0 <= i < j < |order| ==> order[i] != order[j])
  }

  /** Dereferencing the pointer that the `templates` map holds for `f`. */
  function Get(c: Config, f: TemplateField): string {
    match f
    case Username => c.username
    case Password => c.password
    case HostIp => c.hostIp
    case IsoUrl => c.isoUrl
    case InstanceName => c.instanceName
    case RootDiskSize => c.rootDiskSize
    case CloneTemplate => c.cloneTemplate
    case IsoUuid => c.isoUuid
    case SrUuid => c.srUuid
    case NetworkUuid => c.networkUuid
    case BootWait => c.rawBootWait
    case IsoChecksum => c.isoChecksum
    case IsoChecksumType => c.isoChecksumType
    case HttpDirectory => c.httpDir
    case LocalIp => c.localIp
    case SshWaitTimeout => c.rawSshWaitTimeout
    case SshUsername => c.sshUser
    case SshPassword => c.sshPassword
    case SshKeyPath => c.sshKeyPath
    case OutputDirectory => c.outputDir
  }

  /** Everything but the templated fields: those are blanked. */
  function Untemplated(c: Config): Config {
    c.(username := "", password := "", hostIp := "", isoUrl := "",
       instanceName := "", rootDiskSize := "", cloneTemplate := "",
       isoUuid := "", srUuid := "", networkUuid := "", rawBootWait := "",
       isoChecksum := "", isoChecksumType := "", httpDir := "", localIp := "",
       rawSshWaitTimeout := "", sshUser := "", sshPassword := "",
       sshKeyPath := "", outputDir := "")
  }

  /** Writing through the pointer that the `templates` map holds for `f`:
      that field and no other changes. */
  function With(c: Config, f: TemplateField, v: string): (r: Config)
    ensures Get(r, f) == v
    ensures forall g :: g != f ==> Get(r, g) == Get(c, g)
    ensures Untemplated(r) == Untemplated(c)
  {
    match f
    case Username => c.(username := v)
    case Password => c.(password := v)
    case HostIp => c.(hostIp := v)
    case IsoUrl => c.(isoUrl := v)
    case InstanceName => c.(instanceName := v)
    case RootDiskSize => c.(rootDiskSize := v)
    case CloneTemplate => c.(cloneTemplate := v)
    case IsoUuid => c.(isoUuid := v)
    case SrUuid => c.(srUuid := v)
    case NetworkUuid => c.(networkUuid := v)
    case BootWait => c.(rawBootWait := v)
    case IsoChecksum => c.(isoChecksum := v)
    case IsoChecksumType => c.(isoChecksumType := v)
    case HttpDirectory => c.(httpDir := v)
    case LocalIp => c.(localIp := v)
    case SshWaitTimeout => c.(rawSshWaitTimeout := v)
    case SshUsername => c.(sshUser := v)
    case SshPassword => c.(sshPassword := v)
    case SshKeyPath => c.(sshKeyPath := v)
    case OutputDirectory => c.(outputDir := v)
  }

  /** A configuration is determined by its templated fields and the rest. */
  lemma SameConfig(a: Config, b: Config)
    requires Untemplated(a) == Untemplated(b)
    requires forall f :: Get(a, f) == Get(b, f)
    ensures a == b
  {
    assert a.username == b.username by { assert Get(a, Username) == Get(b, Username); }
    assert a.password == b.password by { assert Get(a, Password) == Get(b, Password); }
    assert a.hostIp == b.hostIp by { assert Get(a, HostIp) == Get(b, HostIp); }
    assert a.isoUrl == b.isoUrl by { assert Get(a, IsoUrl) == Get(b, IsoUrl); }
    assert a.instanceName == b.instanceName by { assert Get(a, InstanceName) == Get(b, InstanceName); }
    assert a.rootDiskSize == b.rootDiskSize by { assert Get(a, RootDiskSize) == Get(b, RootDiskSize); }
    assert a.cloneTemplate == b.cloneTemplate by { assert Get(a, CloneTemplate) == Get(b, CloneTemplate); }
    assert a.isoUuid == b.isoUuid by { assert Get(a, IsoUuid) == Get(b, IsoUuid); }
    assert a.srUuid == b.srUuid by { assert Get(a, SrUuid) == Get(b, SrUuid); }
    assert a.networkUuid == b.networkUuid by { assert Get(a, NetworkUuid) == Get(b, NetworkUuid); }
    assert a.rawBootWait == b.rawBootWait by { assert Get(a, BootWait) == Get(b, BootWait); }
    assert a.isoChecksum == b.isoChecksum by { assert Get(a, IsoChecksum) == Get(b, IsoChecksum); }
    assert a.isoChecksumType == b.isoChecksumType by { assert Get(a, IsoChecksumType) == Get(b, IsoChecksumType); }
    assert a.httpDir == b.httpDir by { assert Get(a, HttpDirectory) == Get(b, HttpDirectory); }
    assert a.localIp == b.localIp by { assert Get(a, LocalIp) == Get(b, LocalIp); }
    assert a.rawSshWaitTimeout == b.rawSshWaitTimeout by { assert Get(a, SshWaitTimeout) == Get(b, SshWaitTimeout); }
    assert a.sshUser == b.sshUser by { assert Get(a, SshUsername) == Get(b, SshUsername); }
    assert a.sshPassword == b.sshPassword by { assert Get(a, SshPassword) == Get(b, SshPassword); }
    assert a.sshKeyPath == b.sshKeyPath by { assert Get(a, SshKeyPath) == Get(b, SshKeyPath); }
    assert a.outputDir == b.outputDir by { assert Get(a, OutputDirectory) == Get(b, OutputDirectory); }
  }
}
