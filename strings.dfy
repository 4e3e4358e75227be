/** Joining a list of strings with a separator, and reading such a list back. */
module Strings {

  /** The parts in order with `sep` between neighbours, like Go's strings.Join. */
  function Join(parts: seq<string>, sep: string): string
  {
    if |parts| == 0 then ""
    else if |parts| == 1 then parts[0]
    else parts[0] + sep + Join(parts[1..], sep)
  }

  /** The pieces of `s` between the occurrences of `sep`, found left to right,
      like Go's strings.Split for a non-empty separator. */
  function Split(s: string, sep: string): (parts: seq<string>)
    requires |sep| > 0
    ensures |parts| > 0
    decreases |s|
  {
    if |s| < |sep| then [s]
    else if s[..|sep|] == sep then [""] + Split(s[|sep|..], sep)
    else
      var rest := Split(s[1..], sep);
      [[s[0]] + rest[0]] + rest[1..]
  }

  /** A prefix that cannot start a separator is glued onto the first piece. */
  lemma {:induction false} SplitAfterPlainPrefix(p: string, rest: string, sep: string)
    requires |sep| > 0 && sep[0] !in p
    ensures Split(p + rest, sep) == [p + Split(rest, sep)[0]] + Split(rest, sep)[1..]
  {
    var r := Split(rest, sep);
    if p == [] {
      assert p + rest == rest;
      assert p + r[0] == r[0];
      assert [r[0]] + r[1..] == r;
    } else {
      var s := p + rest;
      assert s[0] == p[0] && s[1..] == p[1..] + rest;
      SplitAfterPlainPrefix(p[1..], rest, sep);
      if |s| < |sep| {
        assert |rest| < |sep|;
      } else {
        assert s[..|sep|][0] != sep[0];
        assert [s[0]] + (p[1..] + r[0]) == p + r[0];
      }
    }
  }

  /** Splitting a joined list gives the list back when no part holds the separator's first character. */
  lemma {:induction false} SplitJoin(parts: seq<string>, sep: string)
    requires |sep| > 0 && |parts| > 0
    requires forall i :: 0 <= i < |parts| ==> sep[0] !in parts[i]
    ensures Split(Join(parts, sep), sep) == parts
  {
    if |parts| == 1 {
      SplitAfterPlainPrefix(parts[0], "", sep);
      assert parts[0] + "" == parts[0];
    } else {
      var tail := Join(parts[1..], sep);
      SplitJoin(parts[1..], sep);
      var rest := sep + tail;
      assert rest[..|sep|] == sep && rest[|sep|..] == tail;
      assert Split(rest, sep) == [""] + parts[1..];
      SplitAfterPlainPrefix(parts[0], rest, sep);
      assert Join(parts, sep) == parts[0] + rest;
      assert parts[0] + "" == parts[0];
      assert [parts[0]] + parts[1..] == parts;
    }
  }
}
