/** The library calls that the XenServer builder's configuration pass makes,
    kept opaque: each one is a function value supplied by the caller. */
module Externals {

  datatype Option<+T> = None | Some(value: T)

  /** A Go call that returns a value and an error. The caller assigns the
      value whether or not the error is nil. */
  datatype Returned<+T> = Returned(value: T, err: Option<string>)

  /** Go's time.Duration: a signed 64-bit count of nanoseconds. */
  newtype Duration = x: int | -0x8000_0000_0000_0000 <= x < 0x8000_0000_0000_0000

  /** The collaborators of Builder.Prepare.
      - process:         packer.ConfigTemplate.Process(s, nil)
      - validate:        packer.ConfigTemplate.Validate(s), the error if any
      - parseDuration:   time.ParseDuration
      - stat:            os.Stat, the error if any
      - fileSigner:      ssh.FileSigner, the error if any
      - hashKnown:       common.HashForType(t) != nil
      - downloadableURL: common.DownloadableURL */
  datatype Env = Env(
    process: string -> Returned<string>,
    validate: string -> Option<string>,
    parseDuration: string -> Returned<Duration>,
    stat: string -> Option<string>,
    fileSigner: string -> Option<string>,
    hashKnown: string -> bool,
    downloadableURL: string -> Returned<string>)

  /** The error half of DownloadableURL, as a check on one entry. */
  function UrlCheck(env: Env): string -> Option<string> {
    u => env.downloadableURL(u).err
  }
}
