/** Reading the commit hash out of `git ls-remote` output: the first field of
    `strings.Split(out, "\t")`. */
module RemoteHash {

  /** `strings.Join(parts, string(sep))`. */
  function JoinWith(parts: seq<string>, sep: char): string
  {
    if parts == [] then ""
    else if |parts| == 1 then parts[0]
    else parts[0] + [sep] + JoinWith(parts[1..], sep)
  }

  /** The number of times `c` occurs in `s`. */
  function Occurrences(s: string, c: char): nat
  {
    if s == [] then 0 else (if s[0] == c then 1 else 0) + Occurrences(s[1..], c)
  }

  /** `strings.Split(s, string(sep))` for a one-character separator: the pieces
      between separators, never fewer than one, none holding the separator,
      which joined again give back `s`. */
  function Split(s: string, sep: char): (parts: seq<string>)
    ensures |parts| == Occurrences(s, sep) + 1
    ensures forall i :: 0 <= i < |parts| ==> sep !in parts[i]
    ensures JoinWith(parts, sep) == s
  {
    if s == [] then [""]
    else
      var rest := Split(s[1..], sep);
      if s[0] == sep then
        assert ([""] + rest)[1..] == rest;
        [""] + rest
      else
        var parts := [[s[0]] + rest[0]] + rest[1..];
        assert parts[1..] == rest[1..];
        assert forall i :: 1 <= i < |parts| ==> parts[i] == rest[i];
        if |rest| == 1 then
          parts
        else
          assert JoinWith(rest, sep) == rest[0] + [sep] + JoinWith(rest[1..], sep);
          assert JoinWith(parts, sep) == [s[0]] + (rest[0] + [sep] + JoinWith(rest[1..], sep));
          assert s == [s[0]] + s[1..];
          parts
  }

  /** The hash in `GetLatestRemoteHashForBranch`: `strings.Split(out, "\t")[0]`. It
      is the longest prefix of the output holding no tab: it stops right before
      the first tab, or is the whole output when there is none. */
  function HashOf(out: string): (hash: string)
    ensures hash <= out
    ensures '\t' !in hash
    ensures |hash| < |out| ==> out[|hash|] == '\t'
  {
    var parts := Split(out, '\t');
    if |parts| == 1 then
      parts[0]
    else
      assert out == parts[0] + ['\t'] + JoinWith(parts[1..], '\t');
      parts[0]
  }

  /** The three properties of `HashOf` determine it: any prefix of the output
      without a tab that ends at a tab or at the end is the hash. */
  lemma HashOfUnique(out: string, hash: string)
    requires hash <= out
    requires '\t' !in hash
    requires |hash| < |out| ==> out[|hash|] == '\t'
    ensures hash == HashOf(out)
  {
    var h := HashOf(out);
    assert |hash| == |h|;
    assert hash == out[..|hash|] && h == out[..|h|];
  }

  /** A line of `ls-remote` output gives its first field. */
  lemma HashOfLsRemoteLine()
    ensures HashOf("abc123deadbeef\trefs/heads/main\n") == "abc123deadbeef"
  {
    var out := "abc123deadbeef\trefs/heads/main\n";
    HashOfUnique(out, "abc123deadbeef");
  }

  /** Output without a tab is returned whole, trailing newline included: nothing
      is trimmed and nothing fails. Empty output yields the empty hash. */
  lemma HashOfWithoutTab(out: string)
    requires '\t' !in out
    ensures HashOf(out) == out
    ensures out == "" ==> HashOf(out) == ""
  {
    HashOfUnique(out, out);
  }
}
