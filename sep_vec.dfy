/**
 * `SepVec`: a list of strings together with the separator it is rendered
 * with. Its source file is not part of this model; rendering is taken to
 * be the list joined with the separator. A `char` separator is held as the
 * one-character string.
 */
module Misc {
  import opened Strings

  datatype SepVec = SepVec(inner: seq<string>, sep: string)
  {
    /**
     * The rendered list: the entries in order, the separator between
     * neighbours. It starts with the first entry and is as long as the
     * entries plus one separator per neighbouring pair.
     */
    function ToString(): (s: string)
      ensures |inner| == 0 ==> s == ""
      ensures |inner| > 0 ==> inner[0] <= s && |s| == SumOfLengths(inner) + (|inner| - 1) * |sep|
    {
      JoinShape(inner, sep);
      Join(inner, sep)
    }
  }

  /** With an empty separator the entries are simply concatenated. */
  lemma {:induction false} EmptySeparatorConcatenates(parts: seq<string>)
    ensures |parts| > 0 ==> SepVec(parts, "").ToString() == parts[0] + SepVec(parts[1..], "").ToString()
    ensures |SepVec(parts, "").ToString()| == SumOfLengths(parts)
  {
    if |parts| > 1 {
      EmptySeparatorConcatenates(parts[1..]);
    }
  }

  lemma {:induction false} JoinShape(parts: seq<string>, sep: string)
    ensures |parts| > 0 ==> parts[0] <= Join(parts, sep) &&
                            |Join(parts, sep)| == SumOfLengths(parts) + (|parts| - 1) * |sep|
  {
    if |parts| > 1 {
      JoinShape(parts[1..], sep);
    }
  }

  function SumOfLengths(parts: seq<string>): nat
  {
    if parts == [] then 0 else |parts[0]| + SumOfLengths(parts[1..])
  }

  /** A list rendered with a one-character separator that no entry holds can be split back into the list. */
  lemma SplitRecoversEntries(v: SepVec, c: char)
    requires v.sep == [c] && |v.inner| >= 1
    requires forall k :: 0 <= k < |v.inner| ==> c !in v.inner[k]
    ensures Split(v.ToString(), c) == v.inner
  {
    SplitJoin(v.inner, c);
  }

  /** The tags of the source's own example render as one comma-separated string. */
  lemma TagsExample()
    ensures SepVec(["action", "comedy"], ",").ToString() == "action,comedy"
    ensures SepVec(["a", "b"], ",").ToString() == "a,b"
  {
  }
}
