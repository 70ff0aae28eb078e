/**
 File-name globs and unique-occurrence editing of the sandbox
 (native/condukt_bashkit/src/lib.rs).
 */
module SandboxText {
  import opened Common

  // ------------------------------------------------------------------- globs

  type Byte = bv8
  const STAR: Byte := 42
  const QUESTION: Byte := 63

  /** The backtracking matcher: a star first stands for nothing, then swallows a byte. */
  predicate GlobMatch(pattern: seq<Byte>, text: seq<Byte>)
    decreases |pattern| + |text|
  {
    if pattern == [] then text == []
    else if pattern[0] == STAR then
      GlobMatch(pattern[1..], text) || (text != [] && GlobMatch(pattern, text[1..]))
    else text != [] && (pattern[0] == QUESTION || pattern[0] == text[0]) && GlobMatch(pattern[1..], text[1..])
  }

  /** What one pattern byte stands for. */
  predicate Stands(p: Byte, part: seq<Byte>) {
    p == STAR || (|part| == 1 && (p == QUESTION || part[0] == p))
  }

  lemma {:induction false} GlobGivesSplit(pattern: seq<Byte>, text: seq<Byte>) returns (parts: seq<seq<Byte>>)
    requires GlobMatch(pattern, text)
    ensures Splits(Stands, pattern, parts, text)
    decreases |pattern| + |text|
  {
    if pattern == [] {
      parts := [];
    } else if pattern[0] == STAR && !GlobMatch(pattern[1..], text) {
      var longer := GlobGivesSplit(pattern, text[1..]);
      parts := longer[0 := [text[0]] + longer[0]];
      assert parts[1..] == longer[1..];
      assert text == [text[0]] + (longer[0] + Concat(longer[1..]));
    } else {
      var n := if pattern[0] == STAR then 0 else 1;
      var rest := GlobGivesSplit(pattern[1..], text[n..]);
      parts := [text[..n]] + rest;
      SplitsCons(Stands, pattern, text[..n], rest, text[n..]);
      assert text == text[..n] + text[n..];
    }
  }

  lemma {:induction false} GlobAcceptsSplit(pattern: seq<Byte>, parts: seq<seq<Byte>>, text: seq<Byte>)
    requires Splits(Stands, pattern, parts, text)
    ensures GlobMatch(pattern, text)
    decreases |pattern| + |text|
  {
    if pattern == [] {
    } else {
      var part, rest := parts[0], Concat(parts[1..]);
      assert Stands(pattern[0], part);
      assert text[|part|..] == rest;
      if pattern[0] == STAR && part != [] {
        var parts' := parts[0 := part[1..]];
        assert parts'[1..] == parts[1..];
        assert text[1..] == part[1..] + rest;
        GlobAcceptsSplit(pattern, parts', text[1..]);
      } else {
        GlobAcceptsSplit(pattern[1..], parts[1..], rest);
      }
    }
  }

  /** The matcher accepts exactly the texts that split into one part per pattern byte: any
      run for a star, one byte for a question mark, the byte itself otherwise. */
  lemma GlobIsItsLanguage(pattern: seq<Byte>, text: seq<Byte>)
    ensures GlobMatch(pattern, text) <==> exists parts :: Splits(Stands, pattern, parts, text)
  {
    if GlobMatch(pattern, text) {
      var parts := GlobGivesSplit(pattern, text);
    }
    forall parts | Splits(Stands, pattern, parts, text)
      ensures GlobMatch(pattern, text)
    {
      GlobAcceptsSplit(pattern, parts, text);
    }
  }

  // ----------------------------------------------------------------- editing

  predicate OccursAt(text: string, needle: string, i: int) {
    0 <= i <= |text| - |needle| && text[i..i + |needle|] == needle
  }

  ghost predicate Occurs(text: string, needle: string) { exists i :: OccursAt(text, needle, i) }

  /** Leftmost occurrence at or after index `from`. */
  function FindFrom(text: string, needle: string, from: nat): (r: Option<nat>)
    requires from <= |text|
    ensures r.Some? ==> from <= r.value && OccursAt(text, needle, r.value)
    ensures forall i :: from <= i < (if r.Some? then r.value else |text| + 1) ==> !OccursAt(text, needle, i)
    decreases |text| - from
  {
    if OccursAt(text, needle, from) then Some(from)
    else if from == |text| then None
    else FindFrom(text, needle, from + 1)
  }

  /** Leftmost non-overlapping occurrences at or after `from`. */
  function CountFrom(text: string, needle: string, from: nat): nat
    requires from <= |text| && needle != []
    decreases |text| - from
  {
    var at := FindFrom(text, needle, from);
    if at.None? then 0 else 1 + CountFrom(text, needle, at.value + |needle|)
  }

  function Count(text: string, needle: string): nat { if needle == [] then 0 else CountFrom(text, needle, 0) }

  function ReplaceFirst(text: string, needle: string, replacement: string): string {
    match FindFrom(text, needle, 0)
    case None => text
    case Some(i) => text[..i] + replacement + text[i + |needle|..]
  }

  /** A count of zero means the needle is absent, and only that, once it is not empty. */
  lemma CountZeroMeansAbsent(text: string, needle: string)
    ensures Count(text, needle) == 0 <==> needle == [] || !Occurs(text, needle)
  {
  }

  /** A count of one means the first occurrence is followed by no other that starts after it ends. */
  lemma CountOneMeansFirstThenNone(text: string, needle: string)
    ensures Count(text, needle) == 1 <==>
            && needle != []
            && FindFrom(text, needle, 0).Some?
            && forall j :: j >= FindFrom(text, needle, 0).value + |needle| ==> !OccursAt(text, needle, j)
  {
    if needle != [] && FindFrom(text, needle, 0).Some? {
      var next := FindFrom(text, needle, 0).value + |needle|;
      var again := FindFrom(text, needle, next);
      assert Count(text, needle) == 1 + CountFrom(text, needle, next);
      assert again.Some? ==> OccursAt(text, needle, again.value);
    }
  }

  /** Places where the needle occurs at or after `from`, in order and without overlap. */
  predicate Disjoint(text: string, needle: string, from: int, places: seq<int>) {
    && (forall k :: 0 <= k < |places| ==> from <= places[k] && OccursAt(text, needle, places[k]))
    && (forall k :: 0 <= k < |places| - 1 ==> places[k] + |needle| <= places[k + 1])
  }

  lemma DisjointTail(text: string, needle: string, from: int, places: seq<int>, next: int)
    requires Disjoint(text, needle, from, places) && needle != [] && places != [] && next <= places[0] + |needle|
    ensures Disjoint(text, needle, next, places[1..])
  {
    forall k | 0 <= k < |places| - 1
      ensures next <= places[1..][k]
    {
      AllLater(text, needle, from, places, k + 1);
    }
  }

  lemma {:induction false} AllLater(text: string, needle: string, from: int, places: seq<int>, k: nat)
    requires Disjoint(text, needle, from, places) && 1 <= k < |places|
    ensures places[0] + |needle| <= places[k]
  {
    if k == 1 {
    } else {
      AllLater(text, needle, from, places, k - 1);
    }
  }

  /** No choice of disjoint occurrences is larger than the count ... */
  lemma {:induction false} CountIsMost(text: string, needle: string, from: nat, places: seq<int>)
    requires from <= |text| && needle != [] && Disjoint(text, needle, from, places)
    ensures |places| <= CountFrom(text, needle, from)
    decreases |text| - from
  {
    if places == [] {
    } else {
      assert OccursAt(text, needle, places[0]);
      var at := FindFrom(text, needle, from);
      DisjointTail(text, needle, from, places, at.value + |needle|);
      CountIsMost(text, needle, at.value + |needle|, places[1..]);
    }
  }

  /** ... and one is as large. */
  lemma {:induction false} CountIsReached(text: string, needle: string, from: nat) returns (places: seq<int>)
    requires from <= |text| && needle != []
    ensures Disjoint(text, needle, from, places) && |places| == CountFrom(text, needle, from)
    decreases |text| - from
  {
    var at := FindFrom(text, needle, from);
    if at.None? {
      places := [];
    } else {
      var rest := CountIsReached(text, needle, at.value + |needle|);
      places := [at.value as int] + rest;
    }
  }

  /** The count is the greatest number of occurrences that do not overlap. */
  lemma CountIsGreatestDisjoint(text: string, needle: string)
    requires needle != []
    ensures exists places :: Disjoint(text, needle, 0, places) && |places| == Count(text, needle)
    ensures forall places :: Disjoint(text, needle, 0, places) ==> |places| <= Count(text, needle)
  {
    var places := CountIsReached(text, needle, 0);
    forall places | Disjoint(text, needle, 0, places)
      ensures |places| <= Count(text, needle)
    {
      CountIsMost(text, needle, 0, places);
    }
  }

  ghost predicate OccursOnlyAt(text: string, needle: string, i: int) {
    OccursAt(text, needle, i) && forall j :: OccursAt(text, needle, j) ==> j == i
  }

  ghost predicate OccursOnce(text: string, needle: string) { exists i :: OccursOnlyAt(text, needle, i) }

  /** No proper prefix of the needle is also its suffix. */
  predicate Unbordered(needle: string) {
    forall b :: 0 < b < |needle| ==> needle[..b] != needle[|needle| - b..]
  }

  /** Two occurrences that overlap give the needle a border. */
  lemma OverlapIsBorder(text: string, needle: string, i: int, j: int)
    requires OccursAt(text, needle, i) && OccursAt(text, needle, j) && i < j < i + |needle|
    ensures !Unbordered(needle)
  {
    var b := i + |needle| - j;
    assert needle[..b] == text[j..j + |needle|][..b] == text[j..j + b];
    assert needle[|needle| - b..] == text[i..i + |needle|][|needle| - b..] == text[j..j + b];
  }

  /** A border lets a text hold two occurrences of which only one is counted. */
  lemma BorderHidesOccurrence(needle: string, b: nat) returns (text: string)
    requires 0 < b < |needle| && needle[..b] == needle[|needle| - b..]
    ensures Count(text, needle) == 1 && !OccursOnce(text, needle)
  {
    var shift := |needle| - b;
    text := needle[..shift] + needle;
    assert text[..|needle|] == needle by {
      assert needle == needle[..shift] + needle[shift..];
      assert text == needle[..shift] + (needle[..b] + needle[b..]);
    }
    assert OccursAt(text, needle, 0);
    assert text[shift..shift + |needle|] == needle;
    assert OccursAt(text, needle, shift);
    CountOneMeansFirstThenNone(text, needle);
  }

  /** The editor's "occurs exactly once" is the plain one for every text exactly when the
      needle has no border; otherwise overlapping occurrences go uncounted. */
  lemma CountOneIsOnceExactlyWhenUnbordered(needle: string)
    requires needle != []
    ensures (forall text :: Count(text, needle) == 1 <==> OccursOnce(text, needle)) <==> Unbordered(needle)
  {
    if Unbordered(needle) {
      forall text
        ensures Count(text, needle) == 1 <==> OccursOnce(text, needle)
      {
        CountIsOnce(text, needle);
      }
    } else {
      var b :| 0 < b < |needle| && needle[..b] == needle[|needle| - b..];
      var text := BorderHidesOccurrence(needle, b);
    }
  }

  lemma CountIsOnce(text: string, needle: string)
    requires needle != [] && Unbordered(needle)
    ensures Count(text, needle) == 1 <==> OccursOnce(text, needle)
  {
    CountOneMeansFirstThenNone(text, needle);
    if Count(text, needle) == 1 {
      var i := FindFrom(text, needle, 0).value;
      forall j | OccursAt(text, needle, j)
        ensures j == i
      {
        if i < j < i + |needle| { OverlapIsBorder(text, needle, i, j); }
      }
      assert OccursOnlyAt(text, needle, i);
    }
  }

  datatype EditResult = NotRead | NotWritten | Edit(occurrences: nat, content: string)

  /** The files of a sandbox session, by path. */
  class Workspace {
    var files: map<string, string>

    constructor (files: map<string, string>)
      ensures this.files == files
    {
      this.files := files;
    }

    /** Replaces the one counted occurrence. `writable` says whether the write succeeds.
        The file changes only then, around the first occurrence, with everything before and
        after it kept and no other file touched. */
    method EditFile(path: string, oldText: string, newText: string, writable: bool) returns (r: EditResult)
      modifies this
      ensures files.Keys == old(files.Keys)
      ensures forall p :: p in files && p != path ==> files[p] == old(files)[p]
      ensures path !in old(files) ==> r == NotRead
      ensures path in old(files) ==>
                var content, n := old(files)[path], Count(old(files)[path], oldText);
                if n != 1 then files[path] == content && r == Edit(n, content)
                else if !writable then files[path] == content && r == NotWritten
                else
                  && r == Edit(1, files[path])
                  && exists i ::
                       && OccursAt(content, oldText, i)
                       && (forall j :: OccursAt(content, oldText, j) ==> i <= j < i + |oldText|)
                       && files[path] == content[..i] + newText + content[i + |oldText|..]
    {
      if path !in files {
        return NotRead;
      }
      var content := files[path];
      var occurrences := Count(content, oldText);
      if occurrences != 1 {
        return Edit(occurrences, content);
      }
      CountOneMeansFirstThenNone(content, oldText);
      var edited := ReplaceFirst(content, oldText, newText);
      if !writable {
        return NotWritten;
      }
      files := files[path := edited];
      ghost var i := FindFrom(content, oldText, 0).value;
      assert OccursAt(content, oldText, i);
      return Edit(1, edited);
    }
  }
}
