/**
 * Relocation inference: two images of one program, linked at two origins, are compared to
 * find the words that hold addresses.
 *
 * A set of words explains the difference when each word points into the payload in both
 * images and nothing else differs.  The cover search keeps at most two paths per position;
 * it still tells no explanation, one and several apart.
 */
module Relocation {
  import opened Octets
  import opened Bytes

  datatype Cover =
    | Unique(path: seq<nat>)
    | Impossible
    | Ambiguous(first: seq<nat>, second: seq<nat>)

  // ------------------------------------------------------------ covers

  /** Two-byte words at strictly separated candidate offsets. */
  predicate Separated(path: seq<nat>, candidates: set<nat>) {
    && (forall i | 0 <= i < |path| :: path[i] in candidates)
    && (forall i | 0 <= i < |path| - 1 :: path[i] + 2 <= path[i + 1])
  }

  predicate CoveredBy(at: nat, path: seq<nat>) {
    exists i | 0 <= i < |path| :: path[i] <= at < path[i] + 2
  }

  /** `path` is made of candidate words inside `[0, length)` and covers every changed byte there. */
  predicate IsCover(length: nat, changed: set<nat>, candidates: set<nat>, path: seq<nat>) {
    && Separated(path, candidates)
    && (path != [] ==> path[|path| - 1] + 2 <= length)
    && (forall at | at in changed && at < length :: CoveredBy(at, path))
  }

  lemma {:induction false} SeparatedOrder(path: seq<nat>, candidates: set<nat>, i: nat, j: nat)
    requires Separated(path, candidates) && i < j < |path|
    ensures path[i] + 2 <= path[j]
    decreases j - i
  {
    if i + 1 < j {
      SeparatedOrder(path, candidates, i, j - 1);
    }
  }

  /** A cover that does not use the last byte, seen from one byte earlier. */
  lemma CoverWithoutLast(length: nat, changed: set<nat>, candidates: set<nat>, path: seq<nat>)
    requires path != [] ==> path[|path| - 1] + 2 <= length
    ensures IsCover(length + 1, changed, candidates, path)
       <==> length !in changed && IsCover(length, changed, candidates, path)
  {
    if IsCover(length + 1, changed, candidates, path) && length in changed {
      var i :| 0 <= i < |path| && path[i] <= length < path[i] + 2;
      if i < |path| - 1 {
        SeparatedOrder(path, candidates, i, |path| - 1);
      }
    }
  }

  /** A cover whose last word ends exactly at the limit, without that word. */
  lemma CoverWithLastWord(length: nat, changed: set<nat>, candidates: set<nat>, path: seq<nat>)
    ensures IsCover(length + 2, changed, candidates, path + [length])
       <==> length in candidates && IsCover(length, changed, candidates, path)
  {
    var long := path + [length];
    if IsCover(length + 2, changed, candidates, long) {
      assert long[|path|] == length;
      forall i | 0 <= i < |path| ensures path[i] in candidates {
        assert long[i] in candidates;
      }
      forall i | 0 <= i < |path| - 1 ensures path[i] + 2 <= path[i + 1] {
        assert long[i] + 2 <= long[i + 1];
      }
      if path != [] {
        assert long[|path| - 1] + 2 <= long[|path|];
      }
      forall at | at in changed && at < length ensures CoveredBy(at, path) {
        var i :| 0 <= i < |long| && long[i] <= at < long[i] + 2;
        assert path[i] <= at < path[i] + 2;
      }
    }
    if length in candidates && IsCover(length, changed, candidates, path) {
      forall at | at in changed && at < length + 2 ensures CoveredBy(at, long) {
        if at < length {
          var i :| 0 <= i < |path| && path[i] <= at < path[i] + 2;
          assert long[i] <= at < long[i] + 2;
        } else {
          assert long[|path|] <= at < long[|path|] + 2;
        }
      }
    }
  }

  // ------------------------------------------------------------ the capped search

  /** The covers of the first `length` bytes whose last word ends there. */
  predicate EndsInWord(length: nat, changed: set<nat>, candidates: set<nat>, path: seq<nat>) {
    IsCover(length, changed, candidates, path) && path != [] && path[|path| - 1] + 2 == length
  }

  /** At most two distinct members of `all`, and every member when there are fewer than two. */
  ghost predicate Sample(kept: seq<seq<nat>>, all: iset<seq<nat>>) {
    && |kept| <= 2
    && (|kept| == 2 ==> kept[0] != kept[1])
    && (forall p <- kept :: p in all)
    && (|kept| < 2 ==> forall p | p in all :: p in kept)
  }

  function AddPath(kept: seq<seq<nat>>, path: seq<nat>): seq<seq<nat>> {
    if path !in kept && |kept| < 2 then kept + [path] else kept
  }

  function Extend(kept: seq<seq<nat>>, paths: seq<seq<nat>>): seq<seq<nat>>
    decreases |paths|
  {
    if paths == [] then kept else Extend(AddPath(kept, paths[0]), paths[1..])
  }

  lemma ExtendByTwo(kept: seq<seq<nat>>, x: seq<nat>, y: seq<nat>)
    ensures Extend(kept, [x]) == AddPath(kept, x)
    ensures Extend(kept, [x, y]) == AddPath(AddPath(kept, x), y)
  {
    assert [x][1..] == [] && [x, y][1..] == [y];
    assert Extend(AddPath(kept, x), [y]) == AddPath(AddPath(kept, x), y);
  }

  /** Adding a sample to a sample gives a sample of the union. */
  lemma SampleOfUnion(kept: seq<seq<nat>>, paths: seq<seq<nat>>, a: iset<seq<nat>>, b: iset<seq<nat>>)
    requires Sample(kept, a) && Sample(paths, b)
    ensures Sample(Extend(kept, paths), a + b)
  {
    if |paths| == 1 {
      assert paths == [paths[0]];
      ExtendByTwo(kept, paths[0], paths[0]);
      assert paths[0] in paths;
    } else if |paths| == 2 {
      assert paths == [paths[0], paths[1]];
      ExtendByTwo(kept, paths[0], paths[1]);
      assert paths[0] in paths && paths[1] in paths;
    }
  }

  function Appended(paths: seq<seq<nat>>, at: nat): seq<seq<nat>> {
    seq(|paths|, i requires 0 <= i < |paths| => paths[i] + [at])
  }

  ghost function Covers(length: nat, changed: set<nat>, candidates: set<nat>): iset<seq<nat>> {
    iset p: seq<nat> | IsCover(length, changed, candidates, p)
  }

  ghost function WordCovers(length: nat, changed: set<nat>, candidates: set<nat>): iset<seq<nat>> {
    iset p: seq<nat> | EndsInWord(length, changed, candidates, p)
  }

  /** Every cover of `length + 1` bytes either skips the last byte or ends in a word there. */
  lemma CoversSplit(length: nat, changed: set<nat>, candidates: set<nat>)
    ensures Covers(length + 1, changed, candidates)
         == WordCovers(length + 1, changed, candidates)
          + (if length in changed then iset{} else Covers(length, changed, candidates))
  {
    var passing := if length in changed then iset{} else Covers(length, changed, candidates);
    forall p: seq<nat>
      ensures p in Covers(length + 1, changed, candidates)
         <==> p in WordCovers(length + 1, changed, candidates) || p in passing
    {
      if p == [] || p[|p| - 1] + 2 <= length {
        CoverWithoutLast(length, changed, candidates, p);
      }
    }
  }

  /** Appending the word at `at` to a sample of covers. */
  lemma AppendedSample(paths: seq<seq<nat>>, at: nat, changed: set<nat>, candidates: set<nat>)
    requires at in candidates && Sample(paths, Covers(at, changed, candidates))
    ensures Sample(Appended(paths, at), WordCovers(at + 2, changed, candidates))
  {
    var longer := Appended(paths, at);
    forall i | 0 <= i < |paths| ensures longer[i][..|longer[i]| - 1] == paths[i] {
    }
    forall p | p in longer ensures p in WordCovers(at + 2, changed, candidates) {
      var i :| 0 <= i < |longer| && longer[i] == p;
      assert paths[i] in paths;
      CoverWithLastWord(at, changed, candidates, paths[i]);
    }
    if |paths| < 2 {
      forall p | p in WordCovers(at + 2, changed, candidates) ensures p in longer {
        var shorter := p[..|p| - 1];
        assert p == shorter + [at];
        CoverWithLastWord(at, changed, candidates, shorter);
        assert shorter in paths;
        var i :| 0 <= i < |paths| && paths[i] == shorter;
        assert longer[i] == p;
      }
    }
  }

  lemma NoWordCovers(length: nat, changed: set<nat>, candidates: set<nat>)
    requires length < 2 || length - 2 !in candidates
    ensures WordCovers(length, changed, candidates) == iset{}
  {
    forall p: seq<nat> ensures !EndsInWord(length, changed, candidates, p) {
      if p != [] && Separated(p, candidates) {
        assert p[|p| - 1] in candidates;
      }
    }
  }

  lemma ExtendFromNothing(paths: seq<seq<nat>>)
    requires |paths| <= 2 && (|paths| == 2 ==> paths[0] != paths[1])
    ensures Extend([], paths) == paths
  {
    if |paths| == 1 {
      assert paths == [paths[0]];
      ExtendByTwo([], paths[0], paths[0]);
    } else if |paths| == 2 {
      assert paths == [paths[0], paths[1]];
      ExtendByTwo([], paths[0], paths[1]);
    }
  }

  /** One row of the search: every path at `position` moves on, past a byte or past a word. */
  method Spread(table: array<seq<seq<nat>>>, position: nat, mayPass: bool, mayRelocate: bool)
    requires position + 1 < table.Length
    requires mayRelocate ==> position + 2 < table.Length
    modifies table
    ensures forall i | 0 <= i < table.Length && i != position + 1 && i != position + 2 ::
              table[i] == old(table[i])
    ensures table[position + 1] == if mayPass then Extend(old(table[position + 1]), old(table[position]))
                                   else old(table[position + 1])
    ensures position + 2 < table.Length ==>
              table[position + 2] ==
                if mayRelocate then Extend(old(table[position + 2]), Appended(old(table[position]), position))
                else old(table[position + 2])
  {
    var here := table[position];
    ghost var moved := Appended(here, position);
    for k := 0 to |here|
      invariant forall i | 0 <= i < table.Length && i != position + 1 && i != position + 2 ::
                  table[i] == old(table[i])
      invariant if mayPass
        then Extend(table[position + 1], here[k..]) == Extend(old(table[position + 1]), here)
        else table[position + 1] == old(table[position + 1])
      invariant position + 2 < table.Length ==>
        if mayRelocate
        then Extend(table[position + 2], moved[k..]) == Extend(old(table[position + 2]), moved)
        else table[position + 2] == old(table[position + 2])
    {
      var path := here[k];
      assert here[k..][0] == path && here[k..][1..] == here[k + 1..];
      assert moved[k..][0] == path + [position] && moved[k..][1..] == moved[k + 1..];
      if mayPass {
        table[position + 1] := AddPath(table[position + 1], path);
      }
      if mayRelocate {
        table[position + 2] := AddPath(table[position + 2], path + [position]);
      }
    }
  }

  lemma OnlyTheEmptyPath(changed: set<nat>, candidates: set<nat>)
    ensures Sample([[]], Covers(0, changed, candidates))
    ensures WordCovers(1, changed, candidates) == iset{}
  {
    assert IsCover(0, changed, candidates, []);
    forall p | p in Covers(0, changed, candidates) ensures p == [] {
    }
  }

  /**
   * Covers every changed byte with candidate words, or says why that cannot be done in
   * exactly one way.  A candidate word must lie inside the image.
   */
  method ResolveUniqueCover(length: nat, changed: set<nat>, candidates: set<nat>) returns (r: Cover)
    requires forall c | c in candidates :: c + 2 <= length
    ensures r.Unique? ==> Covers(length, changed, candidates) == iset{r.path}
    ensures r.Impossible? ==> Covers(length, changed, candidates) == iset{}
    ensures r.Ambiguous? ==> r.first != r.second
    ensures r.Ambiguous? ==> iset{r.first, r.second} <= Covers(length, changed, candidates)
  {
    var paths := new seq<seq<nat>>[length + 1](_ => []);
    paths[0] := [[]];
    OnlyTheEmptyPath(changed, candidates);
    for position := 0 to length
      invariant Sample(paths[position], Covers(position, changed, candidates))
      invariant position < length ==>
          Sample(paths[position + 1], WordCovers(position + 1, changed, candidates))
      invariant forall i | position + 2 <= i <= length :: paths[i] == []
    {
      ghost var here, next := paths[position], paths[position + 1];
      Spread(paths, position, position !in changed, position in candidates);
      CoversSplit(position, changed, candidates);
      if position !in changed {
        SampleOfUnion(next, here, WordCovers(position + 1, changed, candidates),
                      Covers(position, changed, candidates));
      }
      if position in candidates {
        AppendedSample(here, position, changed, candidates);
        ExtendFromNothing(Appended(here, position));
      } else {
        NoWordCovers(position + 2, changed, candidates);
      }
    }
    var solutions := paths[length];
    if solutions == [] {
      return Impossible;
    }
    if |solutions| != 1 {
      assert solutions[0] in solutions && solutions[1] in solutions;
      return Ambiguous(solutions[0], solutions[1]);
    }
    assert solutions[0] in solutions;
    return Unique(solutions[0]);
  }

  // ------------------------------------------------------------ inference

  datatype InferError =
    | DifferentSizes
    | EmptyImages
    | ZeroDelta
    | Unexplained

  /** Both words at `at` point to one and the same place inside the payload. */
  predicate IsRelocatable(a: seq<Byte>, b: seq<Byte>, origin: int, delta: int, at: nat) {
    && |a| == |b|
    && at + 2 <= |a|
    && 0 <= WordAt(a, at) - origin <= |a|
    && WordAt(b, at) - (origin + delta) == WordAt(a, at) - origin
  }

  /**
   * The table `w` explains how `b` differs from `a`: non-overlapping words, each an address
   * of the payload in both images, and not one other byte changed.
   */
  predicate Explains(a: seq<Byte>, b: seq<Byte>, origin: int, delta: int, w: seq<nat>) {
    && |a| == |b|
    && (forall i | 0 <= i < |w| :: IsRelocatable(a, b, origin, delta, w[i]))
    && (forall i | 0 <= i < |w| - 1 :: w[i] + 2 <= w[i + 1])
    && (forall at: nat | at < |a| && a[at] != b[at] :: CoveredBy(at, w))
  }

  function PutWord(image: seq<Byte>, at: nat, value: Word): (r: seq<Byte>)
    requires at + 2 <= |image|
    ensures |r| == |image|
  {
    image[at := value % 0x100][at + 1 := value / 0x100]
  }

  function Wrap(v: int): Word {
    v % 0x1_0000
  }

  lemma WrapAdds(v: int, d: int, e: int)
    ensures Wrap(Wrap(v + d) + e) == Wrap(v + (d + e))
  {
  }

  lemma WrapKeepsWords(v: int)
    requires 0 <= v < 0x1_0000
    ensures Wrap(v) == v
  {
  }

  /** Adds `delta` to the word at every offset of the table, in order, modulo 65536. */
  function Relocate(image: seq<Byte>, delta: int, w: seq<nat>): (r: seq<Byte>)
    requires forall i | 0 <= i < |w| :: w[i] + 2 <= |image|
    ensures |r| == |image|
    decreases |w|
  {
    if w == [] then image
    else Relocate(PutWord(image, w[0], Wrap(WordAt(image, w[0]) + delta)), delta, w[1..])
  }

  lemma PutWordAt(image: seq<Byte>, p: nat, value: Word, at: nat)
    requires p + 2 <= |image| && at < |image|
    ensures WordAt(PutWord(image, p, value), p) == value
    ensures at < p || p + 2 <= at ==> PutWord(image, p, value)[at] == image[at]
    ensures at + 2 <= |image| && (at + 2 <= p || p + 2 <= at) ==>
      WordAt(PutWord(image, p, value), at) == WordAt(image, at)
  {
    Le16RoundTrip(value);
  }

  /** The words after the first of a table lie beyond it. */
  lemma TailBeyond(w: seq<nat>)
    requires w != [] && forall i | 0 <= i < |w| - 1 :: w[i] + 2 <= w[i + 1]
    ensures forall i | 1 <= i < |w| :: w[0] + 2 <= w[i]
  {
    forall i | 1 <= i < |w| ensures w[0] + 2 <= w[i] {
      SeparatedOrder(w, (set o | o in w), 0, i);
    }
  }

  /** What relocation does to the byte and to the word at `at`. */
  lemma {:induction false} RelocateAt(image: seq<Byte>, delta: int, w: seq<nat>, at: nat)
    requires forall i | 0 <= i < |w| :: w[i] + 2 <= |image|
    requires forall i | 0 <= i < |w| - 1 :: w[i] + 2 <= w[i + 1]
    requires at < |image|
    ensures (forall i | 0 <= i < |w| :: at < w[i] || w[i] + 2 <= at) ==>
      Relocate(image, delta, w)[at] == image[at]
    ensures at + 2 <= |image| && (forall i | 0 <= i < |w| :: at + 2 <= w[i] || w[i] + 2 <= at) ==>
      WordAt(Relocate(image, delta, w), at) == WordAt(image, at)
    ensures at + 2 <= |image| && at in w ==>
      WordAt(Relocate(image, delta, w), at) == Wrap(WordAt(image, at) + delta)
    decreases |w|
  {
    hide WordAt, PutWord, Wrap;
    if w != [] {
      var value := Wrap(WordAt(image, w[0]) + delta);
      var patched := PutWord(image, w[0], value);
      TailBeyond(w);
      PutWordAt(image, w[0], value, at);
      RelocateAt(patched, delta, w[1..], at);
      assert forall i | 0 <= i < |w[1..]| :: w[1..][i] == w[i + 1];
      if at in w && at != w[0] {
        assert at in w[1..];
      }
    }
  }

  lemma WordsDecideBytes(x: seq<Byte>, y: seq<Byte>, at: nat)
    requires at + 2 <= |x| && at + 2 <= |y| && WordAt(x, at) == WordAt(y, at)
    ensures x[at] == y[at] && x[at + 1] == y[at + 1]
  {
    WordRoundTrip(x[at], x[at + 1]);
    WordRoundTrip(y[at], y[at + 1]);
  }

  lemma UncoveredIsOutside(at: nat, w: seq<nat>)
    requires !CoveredBy(at, w)
    ensures forall i | 0 <= i < |w| :: at < w[i] || w[i] + 2 <= at
  {
    forall i | 0 <= i < |w| ensures at < w[i] || w[i] + 2 <= at {
    }
  }

  predicate Table(w: seq<nat>, size: nat) {
    && (forall i | 0 <= i < |w| :: w[i] + 2 <= size)
    && (forall i | 0 <= i < |w| - 1 :: w[i] + 2 <= w[i + 1])
  }

  /** Two images that agree on every word of a table and on every other byte are equal. */
  lemma SameWordsSameImage(x: seq<Byte>, y: seq<Byte>, w: seq<nat>)
    requires |x| == |y| && Table(w, |x|)
    requires forall i | 0 <= i < |w| :: WordAt(x, w[i]) == WordAt(y, w[i])
    requires forall at: nat | at < |x| && !CoveredBy(at, w) :: x[at] == y[at]
    ensures x == y
  {
    hide WordAt;
    forall at: nat | at < |x| ensures x[at] == y[at] {
      if CoveredBy(at, w) {
        var i :| 0 <= i < |w| && w[i] <= at < w[i] + 2;
        WordsDecideBytes(x, y, w[i]);
      }
    }
  }

  /** `RelocateAt` for every byte and every word of the table at once. */
  lemma RelocateEverywhere(image: seq<Byte>, delta: int, w: seq<nat>)
    requires Table(w, |image|)
    ensures forall at: nat | at < |image| && !CoveredBy(at, w) ::
              Relocate(image, delta, w)[at] == image[at]
    ensures forall i | 0 <= i < |w| ::
              WordAt(Relocate(image, delta, w), w[i]) == Wrap(WordAt(image, w[i]) + delta)
  {
    hide Relocate, WordAt, Wrap, CoveredBy;
    forall at: nat | at < |image| && !CoveredBy(at, w)
      ensures Relocate(image, delta, w)[at] == image[at]
    {
      UncoveredIsOutside(at, w);
      RelocateAt(image, delta, w, at);
    }
    forall i | 0 <= i < |w|
      ensures WordAt(Relocate(image, delta, w), w[i]) == Wrap(WordAt(image, w[i]) + delta)
    {
      RelocateAt(image, delta, w, w[i]);
    }
  }

  /** An explaining table turns the first image into the second. */
  lemma ExplanationRelocates(a: seq<Byte>, b: seq<Byte>, origin: int, delta: int, w: seq<nat>)
    requires Explains(a, b, origin, delta, w)
    ensures Table(w, |a|) && Relocate(a, delta, w) == b
  {
    hide Relocate, WordAt, Wrap, CoveredBy;
    forall i | 0 <= i < |w|
      ensures w[i] + 2 <= |a| && WordAt(b, w[i]) == Wrap(WordAt(a, w[i]) + delta)
    {
      assert IsRelocatable(a, b, origin, delta, w[i]);
      WrapKeepsWords(WordAt(a, w[i]) + delta);
    }
    RelocateEverywhere(a, delta, w);
    SameWordsSameImage(Relocate(a, delta, w), b, w);
  }

  /** Exactly one byte of a moved word tells, by its change, where the word begins. */
  function Telltale(delta: int): nat {
    if delta % 0x100 == 0 then 1 else 0
  }

  lemma TelltaleChanges(a: seq<Byte>, b: seq<Byte>, origin: int, delta: int, at: nat)
    requires delta != 0 && IsRelocatable(a, b, origin, delta, at)
    ensures a[at] != b[at] <==> Telltale(delta) == 0
    ensures Telltale(delta) == 1 ==> a[at + 1] != b[at + 1]
  {
    var low: int := b[at] as int - a[at] as int;
    var high: int := b[at + 1] as int - a[at + 1] as int;
    assert delta == low + 0x100 * high;
    if low == 0 {
      assert delta % 0x100 == 0;
    } else if low > 0 {
      assert delta % 0x100 == low;
    } else {
      assert delta % 0x100 == low + 0x100;
    }
  }

  /** The word of `w` that covers the telltale byte of a relocatable word at `at`. */
  lemma CoveringWord(a: seq<Byte>, b: seq<Byte>, origin: int, delta: int, at: nat, w: seq<nat>)
    returns (j: nat)
    requires delta != 0 && Explains(a, b, origin, delta, w) && IsRelocatable(a, b, origin, delta, at)
    ensures j < |w| && w[j] <= at + Telltale(delta) < w[j] + 2
    ensures w[j] != at + 1
  {
    hide WordAt;
    TelltaleChanges(a, b, origin, delta, at);
    var changed := at + Telltale(delta);
    assert a[changed] != b[changed];
    assert CoveredBy(changed, w);
    j :| 0 <= j < |w| && w[j] <= changed < w[j] + 2;
    assert IsRelocatable(a, b, origin, delta, w[j]);
    TelltaleChanges(a, b, origin, delta, w[j]);
  }

  /** Tables that agree so far go on with words at the same place. */
  lemma NextWordAtLeast(a: seq<Byte>, b: seq<Byte>, origin: int, delta: int,
                        v: seq<nat>, w: seq<nat>, k: nat)
    requires delta != 0 && Explains(a, b, origin, delta, v) && Explains(a, b, origin, delta, w)
    requires k < |v| && k <= |w| && v[..k] == w[..k]
    ensures k < |w| && w[k] <= v[k]
  {
    hide IsRelocatable, CoveredBy;
    var j := CoveringWord(a, b, origin, delta, v[k], w);
    if j < k {
      assert v[j] == v[..k][j] == w[..k][j] == w[j];
      SeparatedOrder(v, (set o | o in v), j, k);
    } else if j > k {
      SeparatedOrder(w, (set o | o in w), k, j);
    }
  }

  /** Two images are explained by at most one table, so the inference is never ambiguous. */
  lemma {:induction false} OneExplanation(a: seq<Byte>, b: seq<Byte>, origin: int, delta: int,
                                          v: seq<nat>, w: seq<nat>)
    requires delta != 0 && Explains(a, b, origin, delta, v) && Explains(a, b, origin, delta, w)
    ensures v == w
  {
    hide Explains;
    var k := 0;
    while k < |v| && k < |w|
      invariant k <= |v| && k <= |w| && v[..k] == w[..k]
    {
      NextWordAtLeast(a, b, origin, delta, v, w, k);
      NextWordAtLeast(a, b, origin, delta, w, v, k);
      k := k + 1;
    }
    if k < |v| {
      NextWordAtLeast(a, b, origin, delta, v, w, k);
    } else if k < |w| {
      NextWordAtLeast(a, b, origin, delta, w, v, k);
    }
  }

  function Changed(a: seq<Byte>, b: seq<Byte>): set<nat>
    requires |a| == |b|
  {
    set at: nat | at < |a| && a[at] != b[at]
  }

  function Candidates(a: seq<Byte>, b: seq<Byte>, origin: int, delta: int): set<nat>
    requires |a| == |b|
  {
    set at: nat | at < |a| - 1 && WordAt(a, at) != WordAt(b, at) && IsRelocatable(a, b, origin, delta, at)
  }

  /** The covers the search enumerates are exactly the tables that explain the difference. */
  lemma CoversAreExplanations(a: seq<Byte>, b: seq<Byte>, origin: int, delta: int, w: seq<nat>)
    requires |a| == |b| && delta != 0
    ensures IsCover(|a|, Changed(a, b), Candidates(a, b, origin, delta), w)
       <==> Explains(a, b, origin, delta, w)
  {
    var candidates := Candidates(a, b, origin, delta);
    if Explains(a, b, origin, delta, w) {
      forall i | 0 <= i < |w| ensures w[i] in candidates {
        assert IsRelocatable(a, b, origin, delta, w[i]);
      }
    }
    if IsCover(|a|, Changed(a, b), candidates, w) {
      forall i | 0 <= i < |w| ensures IsRelocatable(a, b, origin, delta, w[i]) {
        assert w[i] in candidates;
      }
      forall at: nat | at < |a| && a[at] != b[at] ensures CoveredBy(at, w) {
        assert at in Changed(a, b);
      }
    }
  }

  lemma CoverSetIsExplanationSet(a: seq<Byte>, b: seq<Byte>, origin: int, delta: int)
    requires |a| == |b| && delta != 0
    ensures forall w: seq<nat> ::
      w in Covers(|a|, Changed(a, b), Candidates(a, b, origin, delta)) <==> Explains(a, b, origin, delta, w)
  {
    hide Explains, IsCover;
    forall w: seq<nat> {
      CoversAreExplanations(a, b, origin, delta, w);
    }
  }

  lemma EqualImagesNeedNoTable(a: seq<Byte>, origin: int, delta: int)
    requires delta != 0
    ensures forall w: seq<nat> :: Explains(a, a, origin, delta, w) <==> w == []
  {
    forall at: nat ensures !IsRelocatable(a, a, origin, delta, at) {
    }
    forall w: seq<nat> ensures Explains(a, a, origin, delta, w) <==> w == [] {
      assert w != [] ==> !IsRelocatable(a, a, origin, delta, w[0]);
    }
  }

  lemma NothingChanged(a: seq<Byte>, b: seq<Byte>, origin: int, delta: int)
    requires |a| == |b| && delta != 0 && Changed(a, b) == {}
    ensures Explains(a, b, origin, delta, [])
    ensures Relocate(a, delta, []) == b
  {
    forall at: nat | at < |a| ensures a[at] == b[at] {
      assert at !in Changed(a, b);
    }
    assert a == b;
    EqualImagesNeedNoTable(a, origin, delta);
  }

  /** What the result says about the explanations that exist. */
  ghost predicate Answers(a: seq<Byte>, b: seq<Byte>, origin: int, delta: int,
                          r: Result<seq<nat>, InferError>) {
    match r
    case Ok(w) => |a| == |b| && a != [] && delta != 0 && Explains(a, b, origin, delta, w)
    case Err(DifferentSizes) => |a| != |b|
    case Err(EmptyImages) => |a| == |b| && a == []
    case Err(ZeroDelta) => |a| == |b| && a != [] && delta == 0
    case Err(Unexplained) =>
      |a| == |b| && a != [] && delta != 0 && forall w: seq<nat> :: !Explains(a, b, origin, delta, w)
  }

  method CollectCandidates(a: seq<Byte>, b: seq<Byte>, origin: int, delta: int)
    returns (candidates: set<nat>)
    requires |a| == |b| > 0
    ensures candidates == Candidates(a, b, origin, delta)
    ensures forall c | c in candidates :: c + 2 <= |a|
  {
    candidates := {};
    var size := |a|;
    for offset := 0 to size - 1
      invariant candidates == set at: nat | at < offset && at in Candidates(a, b, origin, delta)
    {
      var left, right := WordAt(a, offset), WordAt(b, offset);
      if left != right {
        var target := left - origin;
        if 0 <= target <= size && right - (origin + delta) == target {
          candidates := candidates + {offset};
        }
      }
    }
  }

  method Patch(image: seq<Byte>, delta: int, w: seq<nat>) returns (patched: seq<Byte>)
    requires forall i | 0 <= i < |w| :: w[i] + 2 <= |image|
    ensures patched == Relocate(image, delta, w)
  {
    patched := image;
    for k := 0 to |w|
      invariant |patched| == |image|
      invariant Relocate(patched, delta, w[k..]) == Relocate(image, delta, w)
    {
      assert w[k..][0] == w[k] && w[k..][1..] == w[k + 1..];
      patched := PutWord(patched, w[k], Wrap(WordAt(patched, w[k]) + delta));
    }
  }

  /**
   * The relocation table of two linked images.  Two of its checks cannot fail: the cover
   * search never finds the images ambiguous, and the table always recreates the second one.
   */
  method InferRelocations(a: seq<Byte>, b: seq<Byte>, origin: int, delta: int)
    returns (r: Result<seq<nat>, InferError>)
    ensures Answers(a, b, origin, delta, r)
    ensures r.Ok? ==> Table(r.value, |a|)
    ensures r.Ok? ==> Relocate(a, delta, r.value) == b
  {
    hide Explains, IsCover, Relocate, IsRelocatable, CoveredBy, Changed, Candidates;
    if |a| != |b| {
      return Err(DifferentSizes);
    }
    if a == [] {
      return Err(EmptyImages);
    }
    if delta == 0 {
      return Err(ZeroDelta);
    }
    var changed := Changed(a, b);
    if changed == {} {
      NothingChanged(a, b, origin, delta);
      return Ok([]);
    }
    var candidates := CollectCandidates(a, b, origin, delta);
    CoverSetIsExplanationSet(a, b, origin, delta);
    ghost var covers := Covers(|a|, changed, candidates);
    var cover := ResolveUniqueCover(|a|, changed, candidates);
    match cover
    case Impossible =>
      return Err(Unexplained);
    case Ambiguous(v, w) =>
      assert v in covers && w in covers;
      OneExplanation(a, b, origin, delta, v, w);
      assert false;
    case Unique(w) =>
      assert w in covers;
      ExplanationRelocates(a, b, origin, delta, w);
      var recreated := Patch(a, delta, w);
      if recreated != b {
        assert false;
      }
      return Ok(w);
  }

  // ------------------------------------------------------------ what the answers mean

  /** Relocating by one distance and then by another is relocating by their sum. */
  lemma RelocationsAdd(image: seq<Byte>, d: int, e: int, w: seq<nat>)
    requires Table(w, |image|)
    ensures Relocate(Relocate(image, d, w), e, w) == Relocate(image, d + e, w)
  {
    hide Relocate, WordAt, Wrap, CoveredBy;
    var once := Relocate(image, d, w);
    RelocateEverywhere(image, d, w);
    RelocateEverywhere(once, e, w);
    RelocateEverywhere(image, d + e, w);
    forall i | 0 <= i < |w|
      ensures WordAt(Relocate(once, e, w), w[i]) == WordAt(Relocate(image, d + e, w), w[i])
    {
      WrapAdds(WordAt(image, w[i]), d, e);
    }
    SameWordsSameImage(Relocate(once, e, w), Relocate(image, d + e, w), w);
  }

  lemma RelocateByZero(image: seq<Byte>, w: seq<nat>)
    requires Table(w, |image|)
    ensures Relocate(image, 0, w) == image
  {
    hide Relocate, WordAt, Wrap, CoveredBy;
    RelocateEverywhere(image, 0, w);
    forall i | 0 <= i < |w| ensures WordAt(Relocate(image, 0, w), w[i]) == WordAt(image, w[i]) {
      WrapKeepsWords(WordAt(image, w[i]));
    }
    SameWordsSameImage(Relocate(image, 0, w), image, w);
  }

  /**
   * The cross-check of three links: when both distances give one table, that table maps
   * every one of the three images to every other.
   */
  lemma OneTableForThreeImages(a: seq<Byte>, b: seq<Byte>, c: seq<Byte>, origin: int,
                               toB: int, toC: int, w: seq<nat>)
    requires Explains(a, b, origin, toB, w) && Explains(a, c, origin, toC, w)
    ensures Table(w, |a|) && |a| == |b| == |c|
    ensures Relocate(a, toB, w) == b && Relocate(a, toC, w) == c
    ensures Relocate(b, -toB, w) == a && Relocate(c, -toC, w) == a
    ensures Relocate(b, toC - toB, w) == c && Relocate(c, toB - toC, w) == b
  {
    hide Relocate, IsRelocatable, CoveredBy;
    ExplanationRelocates(a, b, origin, toB, w);
    ExplanationRelocates(a, c, origin, toC, w);
    RelocationsAdd(a, toB, -toB, w);
    RelocationsAdd(a, toC, -toC, w);
    RelocationsAdd(a, toB, toC - toB, w);
    RelocationsAdd(a, toC, toB - toC, w);
    assert toB + -toB == 0 && toC + -toC == 0;
    assert toB + (toC - toB) == toC && toC + (toB - toC) == toB;
    RelocateByZero(a, w);
  }

  /**
   * The builder's promise: if the second image is the first with `delta` added to the words
   * of `w`, the answer is exactly `w`.
   */
  lemma ExactlyThisTable(a: seq<Byte>, b: seq<Byte>, origin: int, delta: int, w: seq<nat>,
                         r: Result<seq<nat>, InferError>)
    requires a != [] && delta != 0 && |a| == |b| && Table(w, |a|)
    requires forall i | 0 <= i < |w| ::
      0 <= WordAt(a, w[i]) - origin <= |a| && 0 <= WordAt(a, w[i]) + delta < 0x1_0000
    requires b == Relocate(a, delta, w)
    requires Answers(a, b, origin, delta, r)
    ensures r == Ok(w)
  {
    hide Relocate, WordAt, Wrap, CoveredBy;
    RelocateEverywhere(a, delta, w);
    forall i | 0 <= i < |w| ensures IsRelocatable(a, b, origin, delta, w[i]) {
      WrapKeepsWords(WordAt(a, w[i]) + delta);
    }
    assert Explains(a, b, origin, delta, w);
    match r
    case Ok(v) => OneExplanation(a, b, origin, delta, v, w);
    case Err(_) =>
  }
}
