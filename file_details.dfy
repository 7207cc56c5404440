/**
 * Path display in the file details dialog
 * (`src/components/FileDetailsDialog.tsx`): the Windows extended-length
 * prefix `\\?\` is dropped and forward slashes become backslashes.
 */
module FileDetails {
  /** The four characters `\\?\`. */
  const LongPathPrefix: string := ['\\', '\\', '?', '\\']

  predicate HasLongPathPrefix(path: string) {
    |path| >= 4 && path[..4] == LongPathPrefix
  }

  function Backslashed(c: char): char {
    if c == '/' then '\\' else c
  }

  /** `formatPath`. */
  function FormatPath(path: string): (r: string)
    ensures path == [] ==> r == []
    ensures |r| == if HasLongPathPrefix(path) then |path| - 4 else |path|
    ensures '/' !in r
    ensures var offset := if HasLongPathPrefix(path) then 4 else 0;
      forall i :: 0 <= i < |r| ==>
        (path[offset + i] == '/' ==> r[i] == '\\') && (path[offset + i] != '/' ==> r[i] == path[offset + i])
  {
    if path == [] then []
    else
      var rest := if HasLongPathPrefix(path) then path[4..] else path;
      seq(|rest|, i requires 0 <= i < |rest| => Backslashed(rest[i]))
  }

  /** A result that does not itself start with the prefix is left alone by a second formatting. */
  lemma FormatPathStable(path: string)
    requires !HasLongPathPrefix(FormatPath(path))
    ensures FormatPath(FormatPath(path)) == FormatPath(path)
  {
    var r := FormatPath(path);
    assert forall i :: 0 <= i < |r| ==> r[i] != '/';
  }

  /** Forward slashes can build the prefix: formatting `//?/x` twice drops it the second time. */
  lemma SlashesFormTheLongPrefix()
    ensures FormatPath("//?/x") == ['\\', '\\', '?', '\\', 'x']
    ensures FormatPath(FormatPath("//?/x")) == "x"
  {
    var path := "//?/x";
    assert path[..4][0] != LongPathPrefix[0];
    assert FormatPath("//?/x")[..4] == LongPathPrefix;
  }

  /** Only that exact prefix is dropped: a path starting with the device prefix `\\.\` keeps it and its length. */
  lemma DevicePrefixKept(path: string)
    requires |path| >= 4 && path[..4] == ['\\', '\\', '.', '\\']
    ensures |FormatPath(path)| == |path|
    ensures FormatPath(path)[..4] == path[..4]
  {
    assert path[..4][2] != LongPathPrefix[2];
  }
}
