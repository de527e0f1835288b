/** The category decoder of the crawler (extract_categories_from_data): from
    the first "categories" anchor of the flattened array it reads marker-led
    records of five or three slots and turns each into a category with its
    search URL. */
module CategoryDecoder {
  import opened FlatJson

  datatype Category = Category(name: string, slug: string, url: string)

  /** The anchor the category block hangs off. */
  const Anchor := Str("categories")

  /** The URL the crawler derives for a category: it is not in the payload. */
  function CategoryUrl(baseUrl: string, slug: string): string {
    baseUrl + "/search?categories=" + slug
  }

  /** What every emitted category satisfies. */
  predicate WellFormed(c: Category, baseUrl: string) {
    c.name != "" && c.slug != "" && c.url == CategoryUrl(baseUrl, c.slug)
  }

  /** The five-slot form after a marker at p: "name", a string, "slug", a string. */
  predicate FiveSlot(data: seq<Value>, p: nat) {
    p + 4 < |data| && data[p + 1] == Str("name") && data[p + 2].Str?
    && data[p + 3] == Str("slug") && data[p + 4].Str?
  }

  /** The three-slot form after a marker at p: two strings, name then slug. */
  predicate ThreeSlot(data: seq<Value>, p: nat) {
    p + 2 < |data| && data[p + 1].Str? && data[p + 2].Str?
  }

  /** The record read at cursor p with the number of slots it consumes, or
      None where the category block ends. */
  function RecordAt(data: seq<Value>, p: nat, baseUrl: string): (r: Option<(Category, nat)>)
    ensures r.Some? ==> p < |data| && IsMarker(data[p])
    ensures r.Some? ==> (r.value.1 == 5 || r.value.1 == 3) && p + r.value.1 <= |data|
    ensures r.Some? ==> (r.value.1 == 5 <==> FiveSlot(data, p))
    ensures r.Some? && r.value.1 == 5 ==>
              r.value.0.name == data[p + 2].s && r.value.0.slug == data[p + 4].s
    ensures r.Some? && r.value.1 == 3 ==>
              ThreeSlot(data, p) && r.value.0.name == data[p + 1].s && r.value.0.slug == data[p + 2].s
    ensures r.Some? ==> WellFormed(r.value.0, baseUrl)
  {
    if p >= |data| || !IsMarker(data[p]) then None
    else if FiveSlot(data, p) then Record(data[p + 2].s, data[p + 4].s, 5, baseUrl)
    else if ThreeSlot(data, p) then Record(data[p + 1].s, data[p + 2].s, 3, baseUrl)
    else None
  }

  /** A record is emitted only with a non-empty name and slug. */
  function Record(name: string, slug: string, width: nat, baseUrl: string): Option<(Category, nat)> {
    if name != "" && slug != "" then Some((Category(name, slug, CategoryUrl(baseUrl, slug)), width)) else None
  }

  /** The records read contiguously from cursor p until the block ends. */
  function CategoriesFrom(data: seq<Value>, p: nat, baseUrl: string): (cats: seq<Category>)
    decreases |data| - p
    ensures forall c :: c in cats ==> WellFormed(c, baseUrl)
    ensures p <= |data| ==> 3 * |cats| <= |data| - p
  {
    match RecordAt(data, p, baseUrl)
    case None => []
    case Some((c, width)) => [c] + CategoriesFrom(data, p + width, baseUrl)
  }

  /** What extract_categories_from_data returns: the records after the
      reference list that follows the first "categories" anchor, or none when
      there is no anchor or no list right after it. */
  function Categories(data: seq<Value>, baseUrl: string): (cats: seq<Category>)
    ensures forall c :: c in cats ==> WellFormed(c, baseUrl)
    ensures 3 * |cats| <= |data|
  {
    match IndexOf(data, Anchor, 0)
    case None => []
    case Some(i) =>
      if i + 1 < |data| && data[i + 1].Arr? then CategoriesFrom(data, i + 2, baseUrl) else []
  }

  /** The cursor positions of the parse from p: one per record read, then the
      position at which it stops. */
  function Cursors(data: seq<Value>, p: nat, baseUrl: string): seq<nat>
    decreases |data| - p
  {
    match RecordAt(data, p, baseUrl)
    case None => [p]
    case Some((_, width)) => [p] + Cursors(data, p + width, baseUrl)
  }

  /** One step of the walk: the record at cursor `from` is `c` and the cursor
      moves on to `to`, by 5 on the five-slot form and by 3 on the three-slot
      fallback. */
  predicate Advances(data: seq<Value>, baseUrl: string, from: nat, to: nat, c: Category) {
    && (if FiveSlot(data, from) then to == from + 5 else ThreeSlot(data, from) && to == from + 3)
    && RecordAt(data, from, baseUrl) == Some((c, to - from))
  }

  /** Cursor alignment: record k is read at cursor k and the cursor moves on
      by exactly the slots that record takes, it never passes the end of the
      array, and the parse stops at the first position that holds no record. */
  lemma {:induction false} CursorAlignment(data: seq<Value>, p: nat, baseUrl: string)
    requires p <= |data|
    ensures var cs, cats := Cursors(data, p, baseUrl), CategoriesFrom(data, p, baseUrl);
      && |cs| == |cats| + 1 && cs[0] == p
      && (forall k :: 0 <= k < |cs| ==> p <= cs[k] <= |data|)
      && (forall k :: 0 <= k < |cats| ==> Advances(data, baseUrl, cs[k], cs[k + 1], cats[k]))
      && RecordAt(data, cs[|cats|], baseUrl) == None
    decreases |data| - p
  {
    match RecordAt(data, p, baseUrl)
    case None =>
    case Some((c, width)) =>
      CursorAlignment(data, p + width, baseUrl);
      var cs', cats' := Cursors(data, p + width, baseUrl), CategoriesFrom(data, p + width, baseUrl);
      var cs, cats := Cursors(data, p, baseUrl), CategoriesFrom(data, p, baseUrl);
      assert cs == [p] + cs' && cats == [c] + cats';
      assert Advances(data, baseUrl, cs[0], cs[1], cats[0]);
      forall k | 1 <= k < |cats|
        ensures Advances(data, baseUrl, cs[k], cs[k + 1], cats[k])
      {
        assert cs[k] == cs'[k - 1] && cs[k + 1] == cs'[k] && cats[k] == cats'[k - 1];
      }
  }

  /** The parse stops, keeping what it has, exactly when the cursor is off the
      array or not on a marker, when neither form matches, or when the name or
      slug of the matching form is empty. The five-slot form wins whenever it
      matches: an empty name or slug in it ends the block even where the
      three-slot reading would give two non-empty strings. */
  lemma RecordStops(data: seq<Value>, p: nat, baseUrl: string)
    ensures RecordAt(data, p, baseUrl).None? <==>
      || p >= |data|
      || !IsMarker(data[p])
      || (FiveSlot(data, p) && (data[p + 2].s == "" || data[p + 4].s == ""))
      || (!FiveSlot(data, p) && !ThreeSlot(data, p))
      || (!FiveSlot(data, p) && ThreeSlot(data, p) && (data[p + 1].s == "" || data[p + 2].s == ""))
  {
  }

  /** With no "categories" string in the array, nothing is decoded. */
  lemma NoAnchorNoCategories(data: seq<Value>, baseUrl: string)
    requires forall k :: 0 <= k < |data| ==> data[k] != Anchor
    ensures Categories(data, baseUrl) == []
  {
  }

  /** Only the first "categories" anchor is used: when the element after it is
      not a list the result is empty whatever follows, and otherwise the
      records are the ones read from two slots after it. */
  lemma FirstAnchorOnly(data: seq<Value>, i: nat, baseUrl: string)
    requires i < |data| && data[i] == Anchor
    requires forall k :: 0 <= k < i ==> data[k] != Anchor
    ensures !(i + 1 < |data| && data[i + 1].Arr?) ==> Categories(data, baseUrl) == []
    ensures i + 1 < |data| && data[i + 1].Arr? ==>
              Categories(data, baseUrl) == CategoriesFrom(data, i + 2, baseUrl)
  {
    assert IndexOf(data, Anchor, 0) == Some(i);
  }

  /** One five-slot record after the reference list, then the end of the block. */
  lemma OneFiveSlotRecord(baseUrl: string)
    ensures Categories([Anchor, Arr([Int(2)]), Obj(map["_3" := Int(4)]), Str("name"),
                        Str("Base Images"), Str("slug"), Str("library"), Int(7)], baseUrl)
            == [Category("Base Images", "library", baseUrl + "/search?categories=library")]
  {
    var data := [Anchor, Arr([Int(2)]), Obj(map["_3" := Int(4)]), Str("name"),
                 Str("Base Images"), Str("slug"), Str("library"), Int(7)];
    assert IsSentinelKey("_3");
    assert IsMarker(data[2]);
    assert IndexOf(data, Anchor, 0) == Some(0);
    assert FiveSlot(data, 2);
    var c := Category("Base Images", "library", CategoryUrl(baseUrl, "library"));
    assert RecordAt(data, 2, baseUrl) == Some((c, 5));
    assert CategoriesFrom(data, 7, baseUrl) == [];
    assert CategoriesFrom(data, 2, baseUrl) == [c];
    assert Categories(data, baseUrl) == [c];
    assert "/search?categories=" + "library" == "/search?categories=library";
    assert CategoryUrl(baseUrl, "library") == baseUrl + "/search?categories=library";
  }

  /** One unfolding of CategoriesFrom. */
  lemma CategoriesFromStep(data: seq<Value>, p: nat, baseUrl: string)
    ensures RecordAt(data, p, baseUrl).None? ==> CategoriesFrom(data, p, baseUrl) == []
    ensures RecordAt(data, p, baseUrl).Some? ==>
              var (c, width) := RecordAt(data, p, baseUrl).value;
              CategoriesFrom(data, p, baseUrl) == [c] + CategoriesFrom(data, p + width, baseUrl)
  {
  }

  /** Appending the record read at the cursor keeps the walk's invariant. */
  lemma ReadOneMore(data: seq<Value>, start: nat, cur: nat, baseUrl: string,
                    cats: seq<Category>, c: Category, width: nat)
    requires cats + CategoriesFrom(data, cur, baseUrl) == CategoriesFrom(data, start, baseUrl)
    requires RecordAt(data, cur, baseUrl) == Some((c, width))
    ensures cats + [c] + CategoriesFrom(data, cur + width, baseUrl) == CategoriesFrom(data, start, baseUrl)
  {
    var rest := CategoriesFrom(data, cur + width, baseUrl);
    CategoriesFromStep(data, cur, baseUrl);
    assert cats + [c] + rest == cats + ([c] + rest);
  }

  /** The inner walk of extract_categories_from_data: from cursor `start`,
      read records while the cursor is on a marker and one of the two forms
      gives a non-empty name and slug. Returns them with the cursor at which
      the walk stopped. */
  method ReadRecords(data: seq<Value>, start: nat, baseUrl: string) returns (cats: seq<Category>, cur: nat)
    requires start <= |data|
    ensures cats == CategoriesFrom(data, start, baseUrl)
    ensures start <= cur <= |data| && RecordAt(data, cur, baseUrl) == None
  {
    cats := [];
    cur := start;
    while cur < |data|
      invariant start <= cur <= |data|
      invariant cats + CategoriesFrom(data, cur, baseUrl) == CategoriesFrom(data, start, baseUrl)
      decreases |data| - cur
    {
      CategoriesFromStep(data, cur, baseUrl);
      var element := data[cur];
      if !IsMarker(element) {
        break;
      }
      var name, slug, consumed := "", "", 0;
      if cur + 4 < |data| && data[cur + 1] == Str("name") && data[cur + 2].Str?
         && data[cur + 3] == Str("slug") && data[cur + 4].Str? {
        assert FiveSlot(data, cur);
        name, slug, consumed := data[cur + 2].s, data[cur + 4].s, 5;
      } else if cur + 2 < |data| && data[cur + 1].Str? && data[cur + 2].Str? {
        assert !FiveSlot(data, cur) && ThreeSlot(data, cur);
        name, slug, consumed := data[cur + 1].s, data[cur + 2].s, 3;
      } else {
        assert RecordAt(data, cur, baseUrl) == None;
        break;
      }
      assert RecordAt(data, cur, baseUrl) == Record(name, slug, consumed, baseUrl);
      if name == "" || slug == "" {
        break;
      }
      var c := Category(name, slug, CategoryUrl(baseUrl, slug));
      assert RecordAt(data, cur, baseUrl) == Some((c, consumed));
      ReadOneMore(data, start, cur, baseUrl, cats, c, consumed);
      cats := cats + [c];
      cur := cur + consumed;
    }
  }

  /** extract_categories_from_data: the scan for the anchor with its
      found-flag (later anchors are passed over), the check for the reference
      list after it, and the record walk from two slots after the anchor. */
  method ExtractCategories(data: seq<Value>, baseUrl: string) returns (cats: seq<Category>)
    ensures cats == Categories(data, baseUrl)
  {
    cats := [];
    var i := 0;
    var found := false;
    while i < |data|
      invariant 0 <= i <= |data|
      invariant !found ==> cats == [] && forall k :: 0 <= k < i ==> data[k] != Anchor
      invariant found ==> cats == Categories(data, baseUrl)
      decreases |data| - i
    {
      if !found && data[i].Str? && data[i].s == "categories" {
        found := true;
        assert IndexOf(data, Anchor, 0) == Some(i);
        if i + 1 < |data| && data[i + 1].Arr? {
          var cur;
          cats, cur := ReadRecords(data, i + 2, baseUrl);
          i := cur;
          continue;
        } else {
          break;
        }
      }
      i := i + 1;
    }
  }
}
