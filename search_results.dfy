/** The search-page decoder of the crawler (extract_images_from_data): from
    the first "searchResults" anchor it reads the result total and the list of
    result references, resolves each reference to an image id, and reads the
    paging block to report page size, current page and page count. */
module SearchDecoder {
  import opened FlatJson

  /** The decoder's four return values, in the order the source returns them. */
  datatype SearchPage = SearchPage(images: seq<string>, totalItems: int, totalPages: int, currentPage: int)

  /** A decode either returns, or raises IndexError on a result reference
      below minus the array length, which Python's negative indexing rejects. */
  datatype Outcome<+T> = Ok(value: T) | IndexError

  /** The page returned when the anchor or its layout is missing. */
  const NoPage := SearchPage([], 0, 0, 0)

  /** Page size and current page when no usable paging block is found. */
  const DefaultPageSize := 25
  const DefaultPage := 1

  /** The number of pages: the ceiling of totalItems / pageSize, or 0 for a
      page size that is not positive. Python's // and Dafny's / agree for a
      positive divisor (both round down), so the ceiling also holds for a
      negative total. */
  function TotalPages(totalItems: int, pageSize: int): (r: int)
    ensures pageSize > 0 ==> (r - 1) * pageSize < totalItems <= r * pageSize
    ensures pageSize <= 0 ==> r == 0
  {
    if pageSize > 0 then
      var q := (totalItems + pageSize - 1) / pageSize;
      assert q * pageSize + (totalItems + pageSize - 1) % pageSize == totalItems + pageSize - 1;
      assert (q - 1) * pageSize == q * pageSize - pageSize;
      q
    else 0
  }

  /** The characters for which Python's str.isspace is true. */
  predicate IsSpace(c: char) {
    || ('\t' <= c <= '\r')
    || ('\U{1C}' <= c <= '\U{1F}')
    || c == ' ' || c == '\U{85}' || c == '\U{A0}' || c == '\U{1680}'
    || ('\U{2000}' <= c <= '\U{200A}')
    || c == '\U{2028}' || c == '\U{2029}' || c == '\U{202F}' || c == '\U{205F}' || c == '\U{3000}'
  }

  /** The filter on a later result's candidate id: non-empty, and either a
      path with '/' or free of whitespace. */
  predicate IsIdLike(s: string) {
    s != "" && ('/' in s || forall c :: c in s ==> !IsSpace(c))
  }

  /** [Object, "total", int, "results", list] right after the anchor at sr. */
  predicate ResultsLayout(data: seq<Value>, sr: nat) {
    && sr + 5 < |data|
    && data[sr + 1].Obj?
    && data[sr + 2] == Str("total")
    && IsPyInt(data[sr + 3])
    && data[sr + 4] == Str("results")
    && data[sr + 5].Arr?
  }

  /** [Object, "page", int, "pageSize", int] right after the anchor at pg. */
  predicate PagingLayout(data: seq<Value>, pg: nat) {
    && pg + 5 < |data|
    && data[pg + 1].Obj?
    && data[pg + 2] == Str("page")
    && IsPyInt(data[pg + 3])
    && data[pg + 4] == Str("pageSize")
    && IsPyInt(data[pg + 5])
  }

  datatype PagingInfo = PagingInfo(pageSize: int, currentPage: int)

  const DefaultPaging := PagingInfo(DefaultPageSize, DefaultPage)

  /** Page size and current page: from the first "paging" anchor when its
      layout is intact, the defaults otherwise. */
  function Paging(data: seq<Value>): PagingInfo {
    match IndexOf(data, Str("paging"), 0)
    case Some(pg) =>
      if PagingLayout(data, pg) then PagingInfo(PyIntValue(data[pg + 5]), PyIntValue(data[pg + 3]))
      else DefaultPaging
    case None => DefaultPaging
  }

  /** An "id" string followed by a string at position k. */
  predicate IsIdPair(data: seq<Value>, k: nat)
    requires k + 1 < |data|
  {
    data[k] == Str("id") && data[k + 1].Str?
  }

  /** The first position k with from <= k and k + 1 < end where an id pair
      starts: the window scan of the first result. */
  function IdPairIn(data: seq<Value>, from: nat, end: nat): (r: Option<nat>)
    requires end <= |data|
    decreases end - from
    ensures r.Some? ==> from <= r.value && r.value + 1 < end && IsIdPair(data, r.value)
    ensures r.Some? ==> forall j :: from <= j < r.value ==> !IsIdPair(data, j)
    ensures r.None? <==> forall j :: from <= j && j + 1 < end ==> !IsIdPair(data, j)
  {
    if from + 1 >= end then None
    else if IsIdPair(data, from) then Some(from)
    else IdPairIn(data, from + 1, end)
  }

  function Min(a: int, b: int): (m: int)
    ensures m <= a && m <= b && (m == a || m == b)
  {
    if a <= b then a else b
  }

  /** What resolving one result reference does to the walk. */
  datatype Step = Emit(id: string) | Skip | Stop | Crash

  /** The reference is an int (or bool) that passes the `< len` guard but lies
      below -len, so reading data_array at it raises IndexError. */
  predicate RefRaises(data: seq<Value>, ref: Value) {
    IsPyInt(ref) && PyIntValue(ref) < -|data|
  }

  /** The first result: its own reference is only looked up (and may raise);
      the marker must sit right after the six-slot layout, at sr + 6, or the
      item is skipped; its id is the string after the first "id" within the
      ten slots after that marker, and without one the walk stops. */
  function FirstItem(data: seq<Value>, sr: nat, ref: Value): (step: Step)
    ensures step == Crash <==> RefRaises(data, ref)
    ensures step == Skip <==> !RefRaises(data, ref) && !(sr + 6 < |data| && IsMarker(data[sr + 6]))
    ensures step.Emit? ==> step.id != "" && Str(step.id) in data
  {
    if RefRaises(data, ref) then Crash
    else if !(sr + 6 < |data| && IsMarker(data[sr + 6])) then Skip
    else
      match IdPairIn(data, sr + 7, Min(|data|, sr + 17))
      case None => Stop
      case Some(k) => if data[k + 1].s != "" then Emit(data[k + 1].s) else Stop
  }

  /** A later result: a reference that is not an int or not below the array
      length stops the walk, and so does -1 when the last element is not a
      marker. Otherwise the candidate id is the string one slot after the
      referenced position (with Python's negative indexing), kept when it is
      IsIdLike; in every other case the item alone is dropped. */
  function LaterItem(data: seq<Value>, ref: Value): (step: Step)
    ensures step == Crash <==> RefRaises(data, ref)
    ensures step == Stop <==>
              || !IsPyInt(ref) || PyIntValue(ref) >= |data|
              || (PyIntValue(ref) == -1 && 0 < |data| && !IsMarker(data[|data| - 1]))
    ensures step.Emit? ==> IsIdLike(step.id) && Str(step.id) in data
  {
    if !IsPyInt(ref) || PyIntValue(ref) >= |data| then Stop
    else
      var n := PyIntValue(ref);
      if n < -|data| then Crash
      else if !IsMarker(data[PyIndex(n, |data|)]) && n == -1 then Stop
      else if n + 1 < |data| && data[PyIndex(n + 1, |data|)].Str?
              && IsIdLike(data[PyIndex(n + 1, |data|)].s) then
        Emit(data[PyIndex(n + 1, |data|)].s)
      else Skip
  }

  function StepAt(data: seq<Value>, sr: nat, refs: seq<Value>, i: nat): (step: Step)
    requires i < |refs|
    ensures step == Crash <==> RefRaises(data, refs[i])
    ensures step.Emit? ==> step.id != "" && Str(step.id) in data
    ensures step.Emit? && i > 0 ==> IsIdLike(step.id)
  {
    if i == 0 then FirstItem(data, sr, refs[0]) else LaterItem(data, refs[i])
  }

  /** The walk over the result references from index i, with the ids found
      so far in acc. */
  function Walk(data: seq<Value>, sr: nat, refs: seq<Value>, i: nat, acc: seq<string>): (r: Outcome<seq<string>>)
    decreases |refs| - i
    ensures r.Ok? ==> |acc| <= |r.value| && r.value[..|acc|] == acc
    ensures r.Ok? && i <= |refs| ==> |r.value| <= |acc| + |refs| - i
    ensures r.Ok? ==> forall k :: |acc| <= k < |r.value| ==> r.value[k] != ""
  {
    if i >= |refs| then Ok(acc)
    else
      match StepAt(data, sr, refs, i)
      case Crash => IndexError
      case Stop => Ok(acc)
      case Skip => Walk(data, sr, refs, i + 1, acc)
      case Emit(id) => Walk(data, sr, refs, i + 1, acc + [id])
  }

  /** Every id the references from index i resolve to, in reference order,
      disregarding where the walk would stop. */
  function Resolved(data: seq<Value>, sr: nat, refs: seq<Value>, i: nat): (ids: seq<string>)
    requires i <= |refs|
    decreases |refs| - i
    ensures |ids| <= |refs| - i
    ensures forall s :: s in ids ==> s != ""
    ensures i > 0 ==> forall s :: s in ids ==> IsIdLike(s)
  {
    if i == |refs| then []
    else
      var step := StepAt(data, sr, refs, i);
      (if step.Emit? then [step.id] else []) + Resolved(data, sr, refs, i + 1)
  }

  /** What extract_images_from_data returns for the array. */
  function Decode(data: seq<Value>): (r: Outcome<SearchPage>)
    ensures |data| == 0 ==> r == Ok(NoPage)
    ensures r.Ok? ==> forall k :: 0 <= k < |r.value.images| ==> r.value.images[k] != ""
  {
    if |data| == 0 then Ok(NoPage)
    else
      match IndexOf(data, Str("searchResults"), 0)
      case None => Ok(NoPage)
      case Some(sr) =>
        if !ResultsLayout(data, sr) then Ok(NoPage)
        else
          var total := PyIntValue(data[sr + 3]);
          match Walk(data, sr, data[sr + 5].elems, 0, [])
          case IndexError => IndexError
          case Ok(images) =>
            var paging := Paging(data);
            Ok(SearchPage(images, total, TotalPages(total, paging.pageSize), paging.currentPage))
  }

  /** The walk only stops, or raises, and otherwise appends in reference
      order: what it returns is acc followed by a prefix of the ids the
      remaining references resolve to. */
  lemma {:induction false} WalkIsPrefixOfResolved(data: seq<Value>, sr: nat, refs: seq<Value>, i: nat, acc: seq<string>)
    requires i <= |refs|
    ensures Walk(data, sr, refs, i, acc).Ok? ==>
              var images := Walk(data, sr, refs, i, acc).value;
              |acc| <= |images| && images[..|acc|] == acc && images[|acc|..] <= Resolved(data, sr, refs, i)
    decreases |refs| - i
  {
    if i < |refs| {
      var step := StepAt(data, sr, refs, i);
      var rest := Resolved(data, sr, refs, i + 1);
      WalkIsPrefixOfResolved(data, sr, refs, i + 1, if step.Emit? then acc + [step.id] else acc);
      if step.Emit? && Walk(data, sr, refs, i, acc).Ok? {
        var images := Walk(data, sr, refs, i, acc).value;
        assert images[..|acc| + 1] == acc + [step.id];
        assert images[|acc|..] == [step.id] + images[|acc| + 1..];
      }
    }
  }

  /** IndexError is raised only by a reference below minus the array length:
      with every reference at or above it the walk returns. */
  lemma {:induction false} WalkRaisesOnlyOnLowRef(data: seq<Value>, sr: nat, refs: seq<Value>, i: nat, acc: seq<string>)
    requires i <= |refs|
    ensures Walk(data, sr, refs, i, acc) == IndexError ==>
              exists k :: i <= k < |refs| && RefRaises(data, refs[k])
    decreases |refs| - i
  {
    if i < |refs| {
      var step := StepAt(data, sr, refs, i);
      WalkRaisesOnlyOnLowRef(data, sr, refs, i + 1, if step.Emit? then acc + [step.id] else acc);
    }
  }

  /** The first result's own reference matters only for the IndexError it
      may raise: otherwise item 0 is read at sr + 6 whatever it says. */
  lemma FirstRefIgnored(data: seq<Value>, sr: nat, ref: Value)
    requires !RefRaises(data, ref)
    ensures FirstItem(data, sr, ref) == FirstItem(data, sr, Null)
  {
  }

  /** Without a marker at sr + 6 the first result is skipped and the walk
      goes on with the second. */
  lemma FirstWithoutMarkerSkipped(data: seq<Value>, sr: nat, refs: seq<Value>)
    requires |refs| > 0 && !RefRaises(data, refs[0])
    requires !(sr + 6 < |data| && IsMarker(data[sr + 6]))
    ensures Walk(data, sr, refs, 0, []) == Walk(data, sr, refs, 1, [])
  {
  }

  /** With the marker at sr + 6 but no "id" pair in the window, or an empty
      id, the walk stops at once and the page has no images. */
  lemma FirstWithoutIdEmptiesPage(data: seq<Value>, sr: nat, refs: seq<Value>)
    requires |refs| > 0 && !RefRaises(data, refs[0])
    requires sr + 6 < |data| && IsMarker(data[sr + 6])
    requires var end := Min(|data|, sr + 17);
             || (forall j :: sr + 7 <= j && j + 1 < end ==> !IsIdPair(data, j))
             || exists k :: sr + 7 <= k && k + 1 < end && IsIdPair(data, k) && data[k + 1].s == ""
                            && forall j :: sr + 7 <= j < k ==> !IsIdPair(data, j)
    ensures Walk(data, sr, refs, 0, []) == Ok([])
  {
  }

  /** With the marker at sr + 6, the first result's id is the string after
      the first "id" whose pair lies in [sr + 7, min(len, sr + 17)). */
  lemma FirstIdFromWindow(data: seq<Value>, sr: nat, ref: Value, k: nat)
    requires !RefRaises(data, ref)
    requires sr + 6 < |data| && IsMarker(data[sr + 6])
    requires sr + 7 <= k && k + 1 < Min(|data|, sr + 17) && IsIdPair(data, k) && data[k + 1].s != ""
    requires forall j :: sr + 7 <= j < k ==> !IsIdPair(data, j)
    ensures FirstItem(data, sr, ref) == Emit(data[k + 1].s)
  {
  }

  /** A later result with an int (or bool) reference n in [-len, len) is read
      at n + 1, with Python's negative indexing, whether or not n holds a
      marker; the one exception is n == -1 off a marker, which stops the walk.
      A -1 onto a marker reads the candidate id at position 0. */
  lemma LaterIdAfterRef(data: seq<Value>, ref: Value)
    requires IsPyInt(ref) && -|data| <= PyIntValue(ref) < |data|
    requires !(PyIntValue(ref) == -1 && !IsMarker(data[|data| - 1]))
    ensures var n := PyIntValue(ref);
      LaterItem(data, ref) ==
        if n + 1 < |data| && data[PyIndex(n + 1, |data|)].Str? && IsIdLike(data[PyIndex(n + 1, |data|)].s)
        then Emit(data[PyIndex(n + 1, |data|)].s) else Skip
  {
  }

  /** A later reference that is not an int or not below the array length
      ends the walk, and the ids found so far are kept. */
  lemma LaterBadRefStops(data: seq<Value>, sr: nat, refs: seq<Value>, i: nat, acc: seq<string>)
    requires 0 < i < |refs|
    requires !IsPyInt(refs[i]) || PyIntValue(refs[i]) >= |data|
    ensures Walk(data, sr, refs, i, acc) == Ok(acc)
  {
  }

  /** Without a "paging" anchor, page size and current page are 25 and 1. */
  lemma PagingWithoutAnchor(data: seq<Value>)
    requires forall k :: 0 <= k < |data| ==> data[k] != Str("paging")
    ensures Paging(data) == DefaultPaging
  {
  }

  /** Page size and current page are either the defaults or the two ints of
      some intact paging block in the array. */
  lemma PagingSource(data: seq<Value>)
    ensures var paging := Paging(data);
      || paging == DefaultPaging
      || exists pg :: 0 <= pg < |data| && data[pg] == Str("paging") && PagingLayout(data, pg)
                      && paging == PagingInfo(PyIntValue(data[pg + 5]), PyIntValue(data[pg + 3]))
  {
    match IndexOf(data, Str("paging"), 0)
    case None =>
    case Some(pg) =>
      if PagingLayout(data, pg) {
        assert data[pg] == Str("paging");
      }
  }

  /** With the first "paging" anchor at pg, page size and current page are
      the ints at pg + 5 and pg + 3 when its layout is intact, and 25 and 1
      otherwise. */
  lemma PagingAtFirstAnchor(data: seq<Value>, pg: nat)
    requires pg < |data| && data[pg] == Str("paging")
    requires forall k :: 0 <= k < pg ==> data[k] != Str("paging")
    ensures PagingLayout(data, pg) ==>
              Paging(data) == PagingInfo(PyIntValue(data[pg + 5]), PyIntValue(data[pg + 3]))
    ensures !PagingLayout(data, pg) ==> Paging(data) == DefaultPaging
  {
  }

  /** An empty array, a missing "searchResults" anchor, or a broken six-slot
      layout after the first one all give the zero page. */
  lemma DecodeNoPage(data: seq<Value>)
    ensures |data| == 0 ==> Decode(data) == Ok(NoPage)
    ensures (forall k :: 0 <= k < |data| ==> data[k] != Str("searchResults")) ==> Decode(data) == Ok(NoPage)
    ensures forall sr :: 0 <= sr < |data| && data[sr] == Str("searchResults")
                         && (forall k :: 0 <= k < sr ==> data[k] != Str("searchResults"))
                         && !ResultsLayout(data, sr) ==>
              Decode(data) == Ok(NoPage)
  {
  }

  /** With the layout intact after the first anchor: the total is the int at
      sr + 3, page size and current page are Paging's, the page count is the
      ceiling of total over page size (0 for a page size that is not
      positive), and the images are at most one per reference, non-empty, and
      a prefix of the ids the references resolve to. IndexError needs a
      reference below minus the array length. */
  lemma {:induction false} DecodeIntactLayout(data: seq<Value>, sr: nat)
    requires sr < |data| && data[sr] == Str("searchResults")
    requires forall k :: 0 <= k < sr ==> data[k] != Str("searchResults")
    requires ResultsLayout(data, sr)
    ensures var refs := data[sr + 5].elems;
      Decode(data) == IndexError ==> exists k :: 0 <= k < |refs| && RefRaises(data, refs[k])
    ensures Decode(data).Ok? ==>
      var page, refs, paging := Decode(data).value, data[sr + 5].elems, Paging(data);
      && page.totalItems == PyIntValue(data[sr + 3])
      && page.currentPage == paging.currentPage
      && (paging.pageSize > 0 ==>
            (page.totalPages - 1) * paging.pageSize < page.totalItems <= page.totalPages * paging.pageSize)
      && (paging.pageSize <= 0 ==> page.totalPages == 0)
      && page.images <= Resolved(data, sr, refs, 0)
      && |page.images| <= |refs|
      && (forall s :: s in page.images ==> s != "")
  {
    var refs := data[sr + 5].elems;
    DecodeAtFirstAnchor(data, sr);
    WalkIsPrefixOfResolved(data, sr, refs, 0, []);
    WalkRaisesOnlyOnLowRef(data, sr, refs, 0, []);
    match Walk(data, sr, refs, 0, [])
    case IndexError =>
    case Ok(images) =>
      var total, paging := PyIntValue(data[sr + 3]), Paging(data);
      var pages := TotalPages(total, paging.pageSize);
      assert Decode(data) == Ok(SearchPage(images, total, pages, paging.currentPage));
      assert images[0..] == images;
      PrefixKeepsNonEmpty(images, Resolved(data, sr, refs, 0));
  }

  lemma PrefixKeepsNonEmpty(images: seq<string>, resolved: seq<string>)
    requires images <= resolved
    requires forall s :: s in resolved ==> s != ""
    ensures forall s :: s in images ==> s != ""
  {
    forall s | s in images ensures s != "" {
      var j :| 0 <= j < |images| && images[j] == s;
      assert j < |resolved| && resolved[j] == s;
      assert s in resolved;
    }
  }

  /** Decode with the first anchor at sr and its layout intact: the walk's
      outcome, with the total, the paging and the page count around it. */
  lemma DecodeAtFirstAnchor(data: seq<Value>, sr: nat)
    requires sr < |data| && data[sr] == Str("searchResults")
    requires forall k :: 0 <= k < sr ==> data[k] != Str("searchResults")
    requires ResultsLayout(data, sr)
    ensures var total, paging := PyIntValue(data[sr + 3]), Paging(data);
      Decode(data) == match Walk(data, sr, data[sr + 5].elems, 0, [])
                      case IndexError => IndexError
                      case Ok(images) =>
                        Ok(SearchPage(images, total, TotalPages(total, paging.pageSize), paging.currentPage))
  {
    assert IndexOf(data, Str("searchResults"), 0) == Some(sr);
  }

  /** An intact layout with an empty reference list: the total from the
      payload, no images, and the page count from Paging. */
  lemma DecodeNoRefs(data: seq<Value>, sr: nat)
    requires sr < |data| && data[sr] == Str("searchResults")
    requires forall k :: 0 <= k < sr ==> data[k] != Str("searchResults")
    requires ResultsLayout(data, sr) && data[sr + 5].elems == []
    ensures var total := PyIntValue(data[sr + 3]);
      Decode(data) == Ok(SearchPage([], total, TotalPages(total, Paging(data).pageSize), Paging(data).currentPage))
  {
  }

  /** A page of one result: the marker of item 0 sits at sr + 6 with its id
      two slots later, and the paging block gives page 2 of size 25, so 47
      results make 2 pages. */
  const OneResultData := [Str("searchResults"), Obj(map[]), Str("total"), Int(47),
                          Str("results"), Arr([Int(6)]), Obj(map["_7" := Int(8)]), Str("id"),
                          Str("library/nginx"), Str("paging"), Obj(map[]), Str("page"),
                          Int(2), Str("pageSize"), Int(25)]

  lemma OneResultWalk()
    ensures Walk(OneResultData, 0, [Int(6)], 0, []) == Ok(["library/nginx"])
  {
    var data, refs := OneResultData, [Int(6)];
    assert IsSentinelKey("_7");
    assert IsMarker(data[6]);
    assert IsIdPair(data, 7);
    assert IdPairIn(data, 7, Min(|data|, 17)) == Some(7);
    assert StepAt(data, 0, refs, 0) == Emit("library/nginx");
    assert Walk(data, 0, refs, 1, ["library/nginx"]) == Ok(["library/nginx"]);
    assert [] + ["library/nginx"] == ["library/nginx"];
  }

  lemma OneResultPaging()
    ensures Paging(OneResultData) == PagingInfo(25, 2)
  {
    var data := OneResultData;
    assert data[9] == Str("paging");
    forall k | 0 <= k < 9 ensures data[k] != Str("paging") {
      assert data[k].Str? ==> |data[k].s| != |"paging"|;
    }
    assert data[10].Obj? && data[11] == Str("page") && data[12] == Int(2);
    assert data[13] == Str("pageSize") && data[14] == Int(25);
    PagingAtFirstAnchor(data, 9);
  }

  lemma OneResultPage()
    ensures Decode(OneResultData) == Ok(SearchPage(["library/nginx"], 47, 2, 2))
  {
    var data := OneResultData;
    assert data[0] == Str("searchResults") && ResultsLayout(data, 0) by {}
    assert data[5].elems == [Int(6)] && PyIntValue(data[3]) == 47 by {}
    assert TotalPages(47, 25) == 2 by {}
    OneResultWalk();
    OneResultPaging();
    DecodeAtFirstAnchor(data, 0);
  }

  /** The id filter of later results accepts a path even with whitespace
      in it and a word without whitespace. */
  lemma IdFilterAccepts()
    ensures IsIdLike("library/nginx") && IsIdLike("my org/app") && IsIdLike("nginx")
  {
    assert "library/nginx"[7] == '/';
    assert "my org/app"[6] == '/';
  }

  /** It rejects the empty string and prose, with whitespace counted as
      Python's isspace counts it (U+3000 included). */
  lemma IdFilterRejects()
    ensures !IsIdLike("") && !IsIdLike("Official build") && !IsIdLike("a\U{3000}b")
  {
    var prose := "Official build";
    assert forall i :: 0 <= i < |prose| ==> prose[i] != '/';
    assert '/' !in prose && prose[8] in prose && IsSpace(prose[8]);
    var wide := "a\U{3000}b";
    assert forall i :: 0 <= i < |wide| ==> wide[i] != '/';
    assert '/' !in wide && wide[1] in wide && IsSpace(wide[1]);
  }

  /** Python's isspace counts U+0085 but not the zero-width space U+200B,
      so a string holding U+200B passes the filter. */
  lemma IsSpaceCodePoints()
    ensures IsSpace('\U{85}') && !IsSpace('\U{200B}') && IsIdLike("a\U{200B}b")
  {
  }

  /** A result reference below minus the array length makes the source raise
      IndexError, here on the very first result. */
  lemma LowRefRaises()
    ensures Decode([Str("searchResults"), Obj(map[]), Str("total"), Int(1),
                    Str("results"), Arr([Int(-100)])]) == IndexError
  {
    var data := [Str("searchResults"), Obj(map[]), Str("total"), Int(1), Str("results"), Arr([Int(-100)])];
    assert IndexOf(data, Str("searchResults"), 0) == Some(0);
  }

  /** The `range(scan_start_index, scan_end - 1)` scan of the first result
      in extract_images_from_data: the string after the first "id"
      whose pair lies in [start, min(len, start + 10)), or "" when there is
      none. */
  method ScanIdWindow(data: seq<Value>, start: nat) returns (idVal: string)
    ensures var end := Min(|data|, start + 10);
      match IdPairIn(data, start, end)
      case None => idVal == ""
      case Some(k) => idVal == data[k + 1].s
  {
    idVal := "";
    var end := Min(|data|, start + 10);
    var k := start;
    while k < end - 1
      invariant start <= k
      invariant forall j :: start <= j < k && j + 1 < end ==> !IsIdPair(data, j)
    {
      if data[k] == Str("id") && data[k + 1].Str? {
        idVal := data[k + 1].s;
        assert IsIdPair(data, k);
        assert IdPairIn(data, start, end) == Some(k);
        return;
      }
      k := k + 1;
    }
  }

  /** The body of extract_images_from_data's loop over the result
      references, for result i: what it does to the
      walk, as a Step: Crash for the IndexError, Skip for a `continue` or an
      item dropped, Stop for a `break`, Emit for an id appended. */
  method ResolveItem(data: seq<Value>, sr: nat, refs: seq<Value>, i: nat) returns (step: Step)
    requires i < |refs|
    ensures step == StepAt(data, sr, refs, i)
  {
    var ref := refs[i];
    var actual := -1;
    var marker := false;
    if IsPyInt(ref) && PyIntValue(ref) < |data| {
      actual := PyIntValue(ref);
      if actual < -|data| {
        // data_array[actual_marker_index] raises IndexError
        return Crash;
      }
      marker := IsMarker(data[PyIndex(actual, |data|)]);
    }
    if i == 0 {
      var cur := sr + 6;
      if cur < |data| && IsMarker(data[cur]) {
        marker, actual := true, cur;
      } else {
        return Skip;
      }
    }
    if !marker && actual != -1 {
      // a later reference to a non-marker is still read
    } else if !marker {
      // only a later result gets here: item 0 has its marker by now
      return Stop;
    }
    var idVal := "";
    if i == 0 {
      idVal := ScanIdWindow(data, actual + 1);
    } else if actual + 1 < |data| && data[PyIndex(actual + 1, |data|)].Str? {
      var candidate := data[PyIndex(actual + 1, |data|)].s;
      if '/' in candidate || !(exists c :: c in candidate && IsSpace(c)) {
        idVal := candidate;
      }
    }
    if idVal != "" {
      step := Emit(idVal);
    } else if i == 0 {
      step := Stop;
    } else {
      step := Skip;
    }
  }

  /** The `for i, marker_index_ref in enumerate(results_ref_indices)` loop. */
  method WalkRefs(data: seq<Value>, sr: nat, refs: seq<Value>) returns (r: Outcome<seq<string>>)
    ensures r == Walk(data, sr, refs, 0, [])
  {
    var images: seq<string> := [];
    var i := 0;
    while i < |refs|
      invariant 0 <= i <= |refs|
      invariant Walk(data, sr, refs, 0, []) == Walk(data, sr, refs, i, images)
    {
      var step := ResolveItem(data, sr, refs, i);
      match step {
        case Crash => return IndexError;
        case Stop => return Ok(images);
        case Skip =>
        case Emit(id) => images := images + [id];
      }
      i := i + 1;
    }
    return Ok(images);
  }

  /** The paging scan of extract_images_from_data: the first "paging" anchor, its
      layout check, and the defaults 25 and 1. */
  method ReadPaging(data: seq<Value>) returns (paging: PagingInfo)
    ensures paging == Paging(data)
  {
    var pg := FindFirst(data, "paging");
    var pageSize, currentPage := DefaultPageSize, DefaultPage;
    if pg != -1 {
      if pg + 5 < |data| && data[pg + 1].Obj? && data[pg + 2] == Str("page")
         && IsPyInt(data[pg + 3]) && data[pg + 4] == Str("pageSize") && IsPyInt(data[pg + 5]) {
        currentPage := PyIntValue(data[pg + 3]);
        pageSize := PyIntValue(data[pg + 5]);
      }
    }
    paging := PagingInfo(pageSize, currentPage);
  }

  /** extract_images_from_data: the anchor scan, the layout check, the walk
      over the result references, the paging scan with its defaults, and the
      page count. */
  method ExtractImages(data: seq<Value>) returns (r: Outcome<SearchPage>)
    ensures r == Decode(data)
  {
    if |data| == 0 {
      return Ok(NoPage);
    }
    var sr := FindFirst(data, "searchResults");
    if sr == -1 {
      return Ok(NoPage);
    }
    if !(sr + 5 < |data| && data[sr + 1].Obj? && data[sr + 2] == Str("total")
         && IsPyInt(data[sr + 3]) && data[sr + 4] == Str("results") && data[sr + 5].Arr?) {
      return Ok(NoPage);
    }
    DecodeAtFirstAnchor(data, sr);
    var total := PyIntValue(data[sr + 3]);
    var walked := WalkRefs(data, sr, data[sr + 5].elems);
    if walked.IndexError? {
      return IndexError;
    }
    var images := walked.value;
    var paging := ReadPaging(data);
    var pageSize, currentPage := paging.pageSize, paging.currentPage;
    var totalPages := TotalPages(total, pageSize);
    r := Ok(SearchPage(images, total, totalPages, currentPage));
  }
}
