/** Texts as bytes, for the log and its readers. */
module ByteText {
  import opened Prelude

  type Bytes = seq<char>

  const LF: char := '\n'

  function Concat(ps: seq<Bytes>): Bytes {
    if ps == [] then [] else Concat(ps[..|ps| - 1]) + ps[|ps| - 1]
  }

  lemma Regroup(a: Bytes, b: Bytes, d: Bytes)
    ensures (a + b) + d == a + (b + d)
  {
  }

  /** bytes.IndexByte for the line feed, -1 as None. */
  method IndexOfLF(p: Bytes) returns (r: Option<nat>)
    ensures r.None? ==> LF !in p
    ensures r.Some? ==> r.value < |p| && p[r.value] == LF && LF !in p[..r.value]
  {
    for i := 0 to |p|
      invariant LF !in p[..i]
    {
      if p[i] == LF {
        return Some(i);
      }
    }
    r := None;
  }
}
