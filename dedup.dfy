/** remove_duplicates: the crawl's per-category image lists with every image
    kept only where it first appears, walking the categories in the order of
    the results dict. */
module Dedup {

  /** The results dict: category name to image list, in insertion order. */
  type Results = seq<(string, seq<string>)>

  function Elems(s: seq<string>): set<string> {
    set x | x in s
  }

  predicate NoDuplicates(s: seq<string>) {
    forall i, j :: 0 <= i < j < |s| ==> s[i] != s[j]
  }

  /** Position j of xs is the first occurrence of its image, counting the
      images in `seen` as already met. */
  predicate IsFirstOccurrence(xs: seq<string>, seen: set<string>, j: nat)
    requires j < |xs|
  {
    xs[j] !in seen && xs[j] !in xs[..j]
  }

  /** `a` is the subsequence of `b` at the strictly increasing positions f. */
  predicate SubsequenceAt(a: seq<string>, b: seq<string>, f: seq<nat>) {
    && |f| == |a|
    && (forall i :: 0 <= i < |f| ==> f[i] < |b| && a[i] == b[f[i]])
    && (forall i, j :: 0 <= i < j < |f| ==> f[i] < f[j])
  }

  ghost predicate IsSubsequence(a: seq<string>, b: seq<string>) {
    exists f :: SubsequenceAt(a, b, f)
  }

  /** The images of xs that are first occurrences, given `seen`, in order. */
  function KeepFirst(xs: seq<string>, seen: set<string>): (kept: seq<string>)
    decreases |xs|
    ensures |kept| <= |xs|
    ensures forall k :: 0 <= k < |kept| ==> kept[k] in xs && kept[k] !in seen
  {
    if xs == [] then []
    else
      var init, last := xs[..|xs| - 1], xs[|xs| - 1];
      KeepFirst(init, seen) + (if last in seen || last in init then [] else [last])
  }

  /** All images of the results, category after category. */
  function Flatten(rs: Results): seq<string>
    decreases |rs|
  {
    if rs == [] then [] else Flatten(rs[..|rs| - 1]) + rs[|rs| - 1].1
  }

  /** What remove_duplicates returns: each category keeps its key and the
      images that are first occurrences, counting every image of the
      categories before it as seen. */
  function DedupGroups(rs: Results): (out: Results)
    decreases |rs|
    ensures |out| == |rs|
    ensures forall k :: 0 <= k < |rs| ==> out[k].0 == rs[k].0
  {
    if rs == [] then []
    else
      var init := rs[..|rs| - 1];
      DedupGroups(init) + [(rs[|rs| - 1].0, KeepFirst(rs[|rs| - 1].1, Elems(Flatten(init))))]
  }

  /** KeepFirst keeps exactly the first occurrences, in their order: its
      result is the subsequence of xs at the positions that are first
      occurrences. */
  lemma {:induction false} KeepFirstPositions(xs: seq<string>, seen: set<string>) returns (f: seq<nat>)
    ensures SubsequenceAt(KeepFirst(xs, seen), xs, f)
    ensures forall j :: 0 <= j < |xs| ==> (j in f <==> IsFirstOccurrence(xs, seen, j))
    decreases |xs|
  {
    if xs == [] {
      f := [];
    } else {
      var n := |xs| - 1;
      var init, last := xs[..n], xs[n];
      var f' := KeepFirstPositions(init, seen);
      assert forall j :: 0 <= j < n ==> init[j] == xs[j] && init[..j] == xs[..j];
      if last in seen || last in init {
        f := f';
      } else {
        f := f' + [n];
      }
      forall j | 0 <= j < |xs| ensures j in f <==> IsFirstOccurrence(xs, seen, j) {
        if j < n {
          assert (j in f <==> j in f');
        } else {
          assert xs[..j] == init;
        }
      }
    }
  }

  lemma KeepFirstIsSubsequence(xs: seq<string>, seen: set<string>)
    ensures IsSubsequence(KeepFirst(xs, seen), xs)
  {
    var f := KeepFirstPositions(xs, seen);
  }

  /** KeepFirst keeps every image of xs that is not in seen, and no other. */
  lemma {:induction false} KeepFirstElems(xs: seq<string>, seen: set<string>)
    ensures Elems(KeepFirst(xs, seen)) == Elems(xs) - seen
    decreases |xs|
  {
    if xs != [] {
      var n := |xs| - 1;
      var init, last := xs[..n], xs[n];
      KeepFirstElems(init, seen);
      var tail := if last in seen || last in init then [] else [last];
      assert KeepFirst(xs, seen) == KeepFirst(init, seen) + tail;
      ElemsAppend(KeepFirst(init, seen), tail);
      assert xs == init + [last];
      ElemsAppend(init, [last]);
    }
  }

  lemma ElemsAppend(a: seq<string>, b: seq<string>)
    ensures Elems(a + b) == Elems(a) + Elems(b)
  {
  }

  /** KeepFirst never keeps an image twice. */
  lemma {:induction false} KeepFirstNoDuplicates(xs: seq<string>, seen: set<string>)
    ensures NoDuplicates(KeepFirst(xs, seen))
    decreases |xs|
  {
    if xs != [] {
      var n := |xs| - 1;
      var init, last := xs[..n], xs[n];
      KeepFirstNoDuplicates(init, seen);
      KeepFirstElems(init, seen);
      var kept := KeepFirst(init, seen);
      if !(last in seen || last in init) {
        assert last !in Elems(kept);
        assert forall i :: 0 <= i < |kept| ==> kept[i] in Elems(kept);
      }
    }
  }

  /** Deduplicating a concatenation: the second part is deduplicated with the
      images of the first part counted as seen. */
  lemma {:induction false} KeepFirstAppend(a: seq<string>, b: seq<string>, seen: set<string>)
    ensures KeepFirst(a + b, seen) == KeepFirst(a, seen) + KeepFirst(b, seen + Elems(a))
    decreases |b|
  {
    if b == [] {
      assert a + b == a;
    } else {
      var n := |b| - 1;
      var init, last := b[..n], b[n];
      KeepFirstAppend(a, init, seen);
      assert (a + b)[..|a + b| - 1] == a + init;
      assert (a + b)[|a + b| - 1] == last;
      assert (last in seen || last in a + init) <==> (last in seen + Elems(a) || last in init);
    }
  }

  /** The output, read category after category, is the whole input with
      every image kept at its first occurrence only. */
  lemma {:induction false} DedupFlatten(rs: Results)
    ensures Flatten(DedupGroups(rs)) == KeepFirst(Flatten(rs), {})
    decreases |rs|
  {
    if rs != [] {
      var n := |rs| - 1;
      var init := rs[..n];
      var out := DedupGroups(rs);
      DedupFlatten(init);
      KeepFirstAppend(Flatten(init), rs[n].1, {});
      assert out[..n] == DedupGroups(init);
      assert {} + Elems(Flatten(init)) == Elems(Flatten(init));
    }
  }

  /** No image appears in two output positions, across all categories, and
      every input image appears in the output. */
  lemma DedupUniqueAndComplete(rs: Results)
    ensures NoDuplicates(Flatten(DedupGroups(rs)))
    ensures Elems(Flatten(DedupGroups(rs))) == Elems(Flatten(rs))
  {
    DedupFlatten(rs);
    KeepFirstNoDuplicates(Flatten(rs), {});
    KeepFirstElems(Flatten(rs), {});
  }

  /** Category k keeps its key, and its output list is the subsequence of its
      input list of the images met neither earlier in the list nor in any
      earlier category. */
  lemma {:induction false} DedupGroupAt(rs: Results, k: nat)
    requires k < |rs|
    ensures DedupGroups(rs)[k] == (rs[k].0, KeepFirst(rs[k].1, Elems(Flatten(rs[..k]))))
    ensures IsSubsequence(DedupGroups(rs)[k].1, rs[k].1)
    decreases |rs|
  {
    var n := |rs| - 1;
    var init := rs[..n];
    if k < n {
      DedupGroupAt(init, k);
      assert init[..k] == rs[..k];
    } else {
      assert rs[..k] == init;
    }
    KeepFirstIsSubsequence(rs[k].1, Elems(Flatten(rs[..k])));
  }

  /** The nested loops of remove_duplicates, with the `seen` set shared by
      all categories. */
  method RemoveDuplicates(results: Results) returns (out: Results)
    ensures out == DedupGroups(results)
  {
    var seen: set<string> := {};
    out := [];
    for k := 0 to |results|
      invariant out == DedupGroups(results[..k])
      invariant seen == Elems(Flatten(results[..k]))
    {
      var (category, images) := results[k];
      ghost var seenBefore := seen;
      var unique: seq<string> := [];
      for j := 0 to |images|
        invariant unique == KeepFirst(images[..j], seenBefore)
        invariant seen == seenBefore + Elems(images[..j])
      {
        var img := images[j];
        assert images[..j + 1][..j] == images[..j];
        if img !in seen {
          unique := unique + [img];
          seen := seen + {img};
        }
        assert Elems(images[..j + 1]) == Elems(images[..j]) + {img};
      }
      assert images[..|images|] == images;
      assert results[..k + 1][..k] == results[..k];
      out := out + [(category, unique)];
    }
    assert results[..|results|] == results;
  }
}
