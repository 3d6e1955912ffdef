/** Plain string surgery used to take a rendered statement apart again:
    first-occurrence search, prefix/suffix stripping, and splitting and
    joining on a separator character (Python's `str.split`/`str.join` for a
    one-character separator). */
module Text {
  import opened Wrappers

  /** Position of the first `c` in `s` at or after `from`, if there is one. */
  function IndexFrom(s: string, c: char, from: nat): (r: Option<nat>)
    requires from <= |s|
    requires c !in s[..from]
    ensures r.Some? ==> from <= r.value < |s| && s[r.value] == c && c !in s[..r.value]
    ensures r.None? <==> c !in s
    decreases |s| - from
  {
    if from == |s| then
      assert s[..from] == s;
      None
    else if s[from] == c then Some(from)
    else
      assert s[..from + 1] == s[..from] + [s[from]];
      IndexFrom(s, c, from + 1)
  }

  /** Position of the first `c` in `s`, if there is one. */
  function IndexOf(s: string, c: char): (r: Option<nat>)
    ensures r.Some? ==> r.value < |s| && s[r.value] == c && c !in s[..r.value]
    ensures r.None? <==> c !in s
  {
    IndexFrom(s, c, 0)
  }

  /** Splits `s` around the first occurrence of `c`. */
  function SplitFirst(s: string, c: char): (r: Option<(string, string)>)
    ensures r.Some? ==> s == r.value.0 + ([c] + r.value.1) && c !in r.value.0
    ensures r.None? <==> c !in s
  {
    match IndexOf(s, c)
    case None => None
    case Some(i) =>
      assert s == s[..i] + ([c] + s[i + 1..]);
      Some((s[..i], s[i + 1..]))
  }

  /** Whatever follows the first separator is left alone: a string with no
      `c` in front of a `c` is exactly what `SplitFirst` hands back. */
  lemma SplitFirstOf(a: string, c: char, b: string)
    requires c !in a
    ensures SplitFirst(a + ([c] + b), c) == Some((a, b))
  {
    var s := a + ([c] + b);
    assert s[|a|] == c;
    var r := SplitFirst(s, c);
    var x := r.value.0;
    assert s == x + ([c] + r.value.1);
    assert x == s[..|a|] == a;
    assert r.value.1 == s[|a| + 1..] == b;
  }

  /** `s` without the leading `p`, if `s` starts with `p`. */
  function StripPrefix(s: string, p: string): (r: Option<string>)
    ensures r.Some? <==> p <= s
    ensures r.Some? ==> s == p + r.value
  {
    if p <= s then
      assert s == p + s[|p|..];
      Some(s[|p|..])
    else None
  }

  lemma StripPrefixOf(p: string, x: string)
    ensures StripPrefix(p + x, p) == Some(x)
  {
    assert p <= p + x;
  }

  /** A non-empty literal is its first character followed by the rest. */
  lemma LeadingChar(p: string, x: string)
    requires |p| > 0
    ensures [p[0]] + (p[1..] + x) == p + x
  {
    assert p == [p[0]] + p[1..];
  }

  /** `s` without the trailing `p`, if `s` ends with `p`. */
  function StripSuffix(s: string, p: string): (r: Option<string>)
    ensures r.Some? <==> |p| <= |s| && s[|s| - |p|..] == p
    ensures r.Some? ==> s == r.value + p
  {
    if |p| <= |s| && s[|s| - |p|..] == p then
      assert s == s[..|s| - |p|] + p;
      Some(s[..|s| - |p|])
    else None
  }

  lemma StripSuffixOf(x: string, p: string)
    ensures StripSuffix(x + p, p) == Some(x)
  {
    assert (x + p)[|x|..] == p;
    assert (x + p)[..|x|] == x;
  }

  /** `parts` glued together with `c` between neighbours. */
  function Join(parts: seq<string>, c: char): string
  {
    if |parts| == 0 then ""
    else if |parts| == 1 then parts[0]
    else parts[0] + ([c] + Join(parts[1..], c))
  }

  /** The pieces of `s` between occurrences of `c`; joining them with `c`
      gives `s` back, and no piece contains `c`. */
  function Split(s: string, c: char): (r: seq<string>)
    ensures |r| >= 1
    ensures forall i :: 0 <= i < |r| ==> c !in r[i]
    ensures Join(r, c) == s
    decreases |s|
  {
    match SplitFirst(s, c)
    case None => [s]
    case Some((a, b)) =>
      var rest := Split(b, c);
      assert ([a] + rest)[1..] == rest;
      [a] + rest
  }

  /** The other direction: parts free of `c` survive a join followed by a
      split. */
  lemma {:induction false} SplitJoin(parts: seq<string>, c: char)
    requires |parts| >= 1
    requires forall i :: 0 <= i < |parts| ==> c !in parts[i]
    ensures Split(Join(parts, c), c) == parts
    decreases |parts|
  {
    if |parts| == 1 {
      assert Join(parts, c) == parts[0];
    } else {
      var tail := Join(parts[1..], c);
      assert Join(parts, c) == parts[0] + ([c] + tail);
      SplitFirstOf(parts[0], c, tail);
      SplitJoin(parts[1..], c);
      assert [parts[0]] + parts[1..] == parts;
    }
  }
}
