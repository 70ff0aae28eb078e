/** Types shared by every module of the project. */
module Common {
  datatype Option<+T> = None | Some(value: T)

  /** ASCII lower case; other characters are left alone. */
  function LowerChar(c: char): char { if 'A' <= c <= 'Z' then c + 32 as char else c }

  function Lower(s: string): (r: string)
    ensures |r| == |s|
  {
    seq(|s|, i requires 0 <= i < |s| => LowerChar(s[i]))
  }

  function Concat<T>(parts: seq<seq<T>>): seq<T> {
    if parts == [] then [] else parts[0] + Concat(parts[1..])
  }

  /** The parts make up the whole, one for each item, and each is one its item stands for. */
  predicate Splits<P(!new), T(==, !new)>(stands: (P, seq<T>) -> bool, items: seq<P>, parts: seq<seq<T>>, whole: seq<T>)
  {
    && |parts| == |items| && Concat(parts) == whole
    && forall i :: 0 <= i < |items| ==> stands(items[i], parts[i])
  }

  lemma SplitsCons<P(!new), T(!new)>(stands: (P, seq<T>) -> bool, items: seq<P>, part: seq<T>,
                                     parts: seq<seq<T>>, whole: seq<T>)
    requires items != [] && stands(items[0], part) && Splits(stands, items[1..], parts, whole)
    ensures Splits(stands, items, [part] + parts, part + whole)
  {
    assert ([part] + parts)[1..] == parts;
    forall i | 0 <= i < |items|
      ensures stands(items[i], ([part] + parts)[i])
    {
      if i > 0 { assert items[i] == items[1..][i - 1]; }
    }
  }
}
