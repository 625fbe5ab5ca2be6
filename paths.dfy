/**
 * The string functions that directory resolution relies on, written after Go's
 * strings.Split, strings.Join and strings.TrimSuffix for a one-character
 * separator, and the glob metacharacter test of findRealDirectory.
 */
module Paths {

  /** The path separator: filepath.Separator on Unix, so filepath.ToSlash changes nothing. */
  const Separator: char := '/'

  /** The characters whose presence makes a path segment a glob rather than a literal name. */
  const GlobMetaChars: string := "*?[{\\"

  /** True when `strings.IndexAny(segment, "*?[{\\")` is not -1. */
  predicate HasGlobMeta(segment: string)
  {
    exists i :: 0 <= i < |segment| && segment[i] in GlobMetaChars
  }

  /** Go's strings.Join with a one-character separator. */
  function Join(parts: seq<string>, sep: char): string
  {
    if parts == [] then ""
    else if |parts| == 1 then parts[0]
    else parts[0] + [sep] + Join(parts[1..], sep)
  }

  /**
   * Go's strings.Split with a one-character separator: the pieces between
   * separators, one more piece than there are separators.
   */
  function Split(s: string, sep: char): seq<string>
  {
    if s == [] then [""]
    else
      var rest := Split(s[1..], sep);
      if s[0] == sep then [""] + rest
      else [[s[0]] + rest[0]] + rest[1..]
  }

  /** Splitting yields at least one piece, no piece holds the separator, and joining the pieces gives the string back. */
  lemma {:induction false} SplitJoin(s: string, sep: char)
    ensures |Split(s, sep)| >= 1
    ensures forall i :: 0 <= i < |Split(s, sep)| ==> sep !in Split(s, sep)[i]
    ensures Join(Split(s, sep), sep) == s
    decreases |s|
  {
    if s != [] {
      SplitJoin(s[1..], sep);
      var rest := Split(s[1..], sep);
      if s[0] == sep {
        assert ([""] + rest)[1..] == rest;
      } else {
        var parts := [[s[0]] + rest[0]] + rest[1..];
        assert parts[1..] == rest[1..];
        assert s == [s[0]] + s[1..];
        assert forall i :: 1 <= i < |parts| ==> parts[i] == rest[i];
      }
    }
  }

  /** Go's strings.TrimSuffix: removes one trailing occurrence of `suffix`, if there is one. */
  function TrimSuffix(s: string, suffix: string): string
  {
    if |suffix| <= |s| && s[|s| - |suffix|..] == suffix then s[..|s| - |suffix|] else s
  }

  /** Every part followed by one separator, as findRealDirectory's loop builds its path. */
  function Terminated(parts: seq<string>, sep: char): string
  {
    if parts == [] then "" else Terminated(parts[..|parts| - 1], sep) + parts[|parts| - 1] + [sep]
  }

  lemma {:induction false} JoinSnoc(parts: seq<string>, last: string, sep: char)
    requires |parts| >= 1
    ensures Join(parts + [last], sep) == Join(parts, sep) + [sep] + last
    decreases |parts|
  {
    if |parts| > 1 {
      assert (parts + [last])[1..] == parts[1..] + [last];
      JoinSnoc(parts[1..], last, sep);
    }
  }

  /** A terminated list of parts is their join followed by one separator. */
  lemma {:induction false} TerminatedIsJoin(parts: seq<string>, sep: char)
    requires |parts| >= 1
    ensures Terminated(parts, sep) == Join(parts, sep) + [sep]
    decreases |parts|
  {
    var init := parts[..|parts| - 1];
    if |parts| > 1 {
      TerminatedIsJoin(init, sep);
      JoinSnoc(init, parts[|parts| - 1], sep);
      assert init + [parts[|parts| - 1]] == parts;
    }
  }

  /** Joining a leading run of the parts gives a prefix of joining them all. */
  lemma {:induction false} JoinPrefix(parts: seq<string>, k: nat, sep: char)
    requires k <= |parts|
    ensures Join(parts[..k], sep) <= Join(parts, sep)
    decreases |parts|
  {
    if 1 < k && k < |parts| {
      JoinPrefix(parts[1..], k - 1, sep);
      assert parts[..k][1..] == parts[1..][..k - 1];
    } else if k == 1 && 1 < |parts| {
      assert parts[..k] == [parts[0]];
    } else if k == |parts| {
      assert parts[..k] == parts;
    }
  }
}
