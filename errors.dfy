/** The problems Builder.Prepare accumulates, and the index-tagged problems
    its two list loops (boot commands, ISO URLs) report. */
module Errors {
  import opened Externals
  import opened BuildConfig

  /** The two lists whose entries are checked one by one. */
  datatype ListKind = BootCommandEntry | IsoUrlEntry

  /** One accumulated problem. Message text is not modelled; each kind of
      message is a constructor, with the parts the message interpolates. */
  datatype Error =
    | UnusedKey(key: string)                               // reported by CheckUnusedConfig
    | TemplateInvalid(field: TemplateField, detail: string) // "Error processing <key>: ..."
    | BootWaitUnparsable                                    // "Failed to parse boot_wait."
    | SshWaitTimeoutUnparsable(detail: string)
    | EntryInvalid(list: ListKind, index: nat, detail: string) // boot_command[i], iso_url (i)
    | Missing(field: TemplateField)                         // a required field is empty
    | SshKeyInvalid(detail: string)                         // "ssh_key_path is invalid: ..."
    | HttpPortRange
    | VncPortRange
    | MissingChecksumType
    | MissingChecksum
    | UnsupportedChecksumType(checksumType: string)
    | MissingIsoUrl

  /** One UnusedKey per key, in order. */
  function UnusedKeyErrors(keys: seq<string>): (r: seq<Error>)
    ensures |r| == |keys|
    ensures forall i :: 0 <= i < |keys| ==> r[i] == UnusedKey(keys[i])
  {
    if keys == [] then [] else [UnusedKey(keys[0])] + UnusedKeyErrors(keys[1..])
  }

  /** The problems a loop `for i, x := range xs { if err := check(x) ... }`
      reports, in index order: one per entry that fails, tagged with its index. */
  function Failures(kind: ListKind, xs: seq<string>, check: string -> Option<string>): (r: seq<Error>)
    ensures |r| <= |xs|
    decreases |xs|
  {
    if xs == [] then []
    else
      var n := |xs| - 1;
      Failures(kind, xs[..n], check) + FailureAt(kind, n, check(xs[n]))
  }

  /** The problem reported for entry `i` with outcome `outcome`. */
  function FailureAt(kind: ListKind, i: nat, outcome: Option<string>): seq<Error> {
    match outcome
    case Some(d) => [EntryInvalid(kind, i, d)]
    case None => []
  }

  /** A prefix one longer is the prefix and the next element. */
  lemma PrefixGrows<T>(xs: seq<T>, n: nat)
    requires n < |xs|
    ensures xs[..n + 1] == xs[..n] + [xs[n]]
  {
  }

  /** Checking one more entry appends that entry's problem, if any. */
  lemma FailuresStep(kind: ListKind, xs: seq<string>, i: nat, check: string -> Option<string>)
    requires i < |xs|
    ensures Failures(kind, xs[..i + 1], check) == Failures(kind, xs[..i], check) + FailureAt(kind, i, check(xs[i]))
  {
    assert xs[..i + 1][..i] == xs[..i];
  }

  /** Each failing entry is reported exactly once, with its own index and its
      own error; nothing else is reported. */
  lemma {:induction false} FailuresExact(kind: ListKind, xs: seq<string>, check: string -> Option<string>, e: Error)
    ensures multiset(Failures(kind, xs, check))[e] ==
            if e.EntryInvalid? && e.list == kind && e.index < |xs| && check(xs[e.index]) == Some(e.detail)
            then 1 else 0
    decreases |xs|
  {
    if xs != [] {
      var n := |xs| - 1;
      FailuresExact(kind, xs[..n], check, e);
      if e.EntryInvalid? && e.index < n {
        assert xs[..n][e.index] == xs[e.index];
      }
    }
  }

  /** The indices of the entries that fail the check. */
  function FailingIndices(xs: seq<string>, check: string -> Option<string>): set<nat> {
    set i: nat | i < |xs| && check(xs[i]).Some?
  }

  /** As many problems as failing entries. */
  lemma {:induction false} FailuresCount(kind: ListKind, xs: seq<string>, check: string -> Option<string>)
    ensures |Failures(kind, xs, check)| == |FailingIndices(xs, check)|
    decreases |xs|
  {
    if xs != [] {
      var n := |xs| - 1;
      FailuresCount(kind, xs[..n], check);
      var before := FailingIndices(xs[..n], check);
      if check(xs[n]).Some? {
        assert FailingIndices(xs, check) == before + {n};
      } else {
        assert FailingIndices(xs, check) == before;
      }
    }
  }

  /** No problem at all exactly when every entry passes. */
  lemma NoFailures(kind: ListKind, xs: seq<string>, check: string -> Option<string>)
    ensures Failures(kind, xs, check) == [] <==> forall i :: 0 <= i < |xs| ==> check(xs[i]).None?
  {
    FailuresCount(kind, xs, check);
    if exists i :: 0 <= i < |xs| && check(xs[i]).Some? {
      var i :| 0 <= i < |xs| && check(xs[i]).Some?;
      assert i in FailingIndices(xs, check);
    } else {
      assert FailingIndices(xs, check) == {};
    }
  }
}
