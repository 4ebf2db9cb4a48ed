/** The editor's two records, `MediaItem` and `Clip`, their dictionary forms,
    and the media table: the project's `media` dictionary, which maps each
    id to its item and, like every Python dictionary, remembers the order in
    which its keys were first inserted. */
module Records {
  import opened JsonValues

  /** A media file that was imported: where it is, which kind it is
      ("video", "audio" or "image"), its thumbnail and its id. */
  datatype MediaItem = MediaItem(path: string, mediaType: string, thumbnail: string, id: string)

  /** A segment [inPoint, outPoint] of a media item placed on a track at
      startTime (all in seconds). */
  datatype Clip = Clip(mediaId: string, inPoint: real, outPoint: real, startTime: real)

  /** `MediaItem.from_dict`: the four keys are read in the order the
      constructor call names them, and the first one missing raises. */
  function MediaFromDict(d: Value): (r: Result<MediaItem>)
    ensures r.Ok? <==> d.Obj? && IsStr(d, "path") && IsStr(d, "media_type")
                        && IsStr(d, "thumbnail") && IsStr(d, "id")
    ensures r.Ok? ==> d.fields["path"] == Str(r.value.path)
                      && d.fields["media_type"] == Str(r.value.mediaType)
                      && d.fields["thumbnail"] == Str(r.value.thumbnail)
                      && d.fields["id"] == Str(r.value.id)
    ensures !d.Obj? ==> r == Err(NotAnObject)
    ensures d.Obj? && "path" !in d.fields ==> r == Err(MissingKey("path"))
  {
    if !d.Obj? then Err(NotAnObject)
    else
      var path :- GetString(d.fields, "path");
      var mediaType :- GetString(d.fields, "media_type");
      var thumbnail :- GetString(d.fields, "thumbnail");
      var id :- GetString(d.fields, "id");
      Ok(MediaItem(path, mediaType, thumbnail, id))
  }

  /** `MediaItem.to_dict`: exactly the four keys, and `from_dict` rebuilds an
      equal item. */
  function MediaToDict(m: MediaItem): (d: Value)
    ensures d.Obj? && d.fields.Keys == {"id", "path", "media_type", "thumbnail"}
    ensures MediaFromDict(d) == Ok(m)
  {
    Obj(map["id" := Str(m.id), "path" := Str(m.path),
            "media_type" := Str(m.mediaType), "thumbnail" := Str(m.thumbnail)])
  }

  predicate IsStr(d: Value, key: string)
    requires d.Obj?
  {
    key in d.fields && d.fields[key].Str?
  }

  predicate IsNum(d: Value, key: string)
    requires d.Obj?
  {
    key in d.fields && d.fields[key].Num?
  }

  /** `Clip.from_dict`: keys "media_id", "in", "out", "start", read in that
      order. */
  function ClipFromDict(d: Value): (r: Result<Clip>)
    ensures r.Ok? <==> d.Obj? && IsStr(d, "media_id") && IsNum(d, "in")
                        && IsNum(d, "out") && IsNum(d, "start")
    ensures r.Ok? ==> d.fields["media_id"] == Str(r.value.mediaId)
                      && d.fields["in"] == Num(r.value.inPoint)
                      && d.fields["out"] == Num(r.value.outPoint)
                      && d.fields["start"] == Num(r.value.startTime)
    ensures !d.Obj? ==> r == Err(NotAnObject)
    ensures d.Obj? && "media_id" !in d.fields ==> r == Err(MissingKey("media_id"))
  {
    if !d.Obj? then Err(NotAnObject)
    else
      var mediaId :- GetString(d.fields, "media_id");
      var inPoint :- GetNumber(d.fields, "in");
      var outPoint :- GetNumber(d.fields, "out");
      var startTime :- GetNumber(d.fields, "start");
      Ok(Clip(mediaId, inPoint, outPoint, startTime))
  }

  /** `Clip.to_dict`: the short keys "in", "out", "start", and `from_dict`
      rebuilds an equal clip. */
  function ClipToDict(c: Clip): (d: Value)
    ensures d.Obj? && d.fields.Keys == {"media_id", "in", "out", "start"}
    ensures ClipFromDict(d) == Ok(c)
  {
    Obj(map["media_id" := Str(c.mediaId), "in" := Num(c.inPoint),
            "out" := Num(c.outPoint), "start" := Num(c.startTime)])
  }

  predicate Distinct<T(==)>(s: seq<T>) {
    forall i, j :: 0 <= i < j < |s| ==> s[i] != s[j]
  }

  /** The `media` dictionary: `order` lists the keys in insertion order. */
  datatype MediaTable = MediaTable(order: seq<string>, items: map<string, MediaItem>) {

    /** The keys are exactly the listed ids, each listed once, and every item
        is stored under its own id. */
    ghost predicate Valid() {
      && (forall k :: k in items <==> k in order)
      && Distinct(order)
      && (forall k :: k in items ==> items[k].id == k)
    }

    /** `media[item.id] = item`: the item is stored under its id; a new id
        goes to the end of the order, an existing one keeps its place. */
    function Put(item: MediaItem): (t: MediaTable)
      ensures t.items == items[item.id := item]
      ensures item.id in items ==> t.order == order
      ensures item.id !in items ==> t.order == order + [item.id]
      ensures Valid() ==> t.Valid()
    {
      if item.id in items then MediaTable(order, items[item.id := item])
      else MediaTable(order + [item.id], items[item.id := item])
    }

    /** `media.values()`, in insertion order. */
    function Values(): (vs: seq<MediaItem>)
      requires Valid()
      ensures |vs| == |order|
      ensures forall i :: 0 <= i < |order| ==> vs[i] == items[order[i]]
    {
      seq(|order|, i requires 0 <= i < |order| => items[order[i]])
    }
  }

  function EmptyTable(): (t: MediaTable)
    ensures t.Valid() && t.items == map[]
  {
    MediaTable([], map[])
  }

  /** The table a loop of `media[item.id] = item` builds from an empty one. */
  function TableOf(items: seq<MediaItem>): (t: MediaTable)
    ensures t.Valid()
  {
    if items == [] then EmptyTable()
    else TableOf(items[..|items| - 1]).Put(items[|items| - 1])
  }

  /** The ids of a list of items, in list order. */
  function Ids(items: seq<MediaItem>): (ids: seq<string>)
    ensures |ids| == |items|
    ensures forall i :: 0 <= i < |items| ==> ids[i] == items[i].id
  {
    seq(|items|, i requires 0 <= i < |items| => items[i].id)
  }

  /** The position where k first occurs in ids. */
  function FirstIndex(ids: seq<string>, k: string): (i: nat)
    requires k in ids
    ensures i < |ids| && ids[i] == k
    ensures forall j :: 0 <= j < i ==> ids[j] != k
  {
    var front := ids[..|ids| - 1];
    if k in front then FirstIndex(front, k) else |ids| - 1
  }

  /** The table holds m under m's id. */
  predicate Stores(t: MediaTable, m: MediaItem) {
    m.id in t.items && t.items[m.id] == m
  }

  /** No item after position i has the id of item i. */
  predicate LastWithId(items: seq<MediaItem>, i: nat)
    requires i < |items|
  {
    forall j :: i < j < |items| ==> items[j].id != items[i].id
  }

  /** What a loop of `media[item.id] = item` leaves in the dictionary, for
      any list of items: the keys are exactly the ids in the list; an item
      that no later item shares its id with is the one stored under that
      id, so a repeated id keeps the value of its last occurrence; the key
      order lists each id once, by its first occurrence. */
  lemma TableOfContents(items: seq<MediaItem>)
    ensures forall k :: k in TableOf(items).items <==> k in Ids(items)
    ensures forall i :: 0 <= i < |items| && LastWithId(items, i) ==>
      Stores(TableOf(items), items[i])
    ensures forall k :: k in TableOf(items).order <==> k in Ids(items)
    ensures forall p, q :: 0 <= p < q < |TableOf(items).order| ==>
      FirstIndex(Ids(items), TableOf(items).order[p]) < FirstIndex(Ids(items), TableOf(items).order[q])
  {
    TableKeys(items);
    TableLastWins(items);
    TableOrder(items);
  }

  lemma {:induction false} TableKeys(items: seq<MediaItem>)
    ensures forall k :: k in TableOf(items).items <==> k in Ids(items)
  {
    if items != [] {
      var n := |items|;
      TableKeys(items[..n - 1]);
      assert Ids(items) == Ids(items[..n - 1]) + [items[n - 1].id];
    }
  }

  lemma {:induction false} TableLastWins(items: seq<MediaItem>)
    ensures forall i :: 0 <= i < |items| && LastWithId(items, i) ==>
      Stores(TableOf(items), items[i])
  {
    if items != [] {
      var n := |items|;
      var front, x := items[..n - 1], items[n - 1];
      TableLastWins(front);
      assert items == front + [x];
      StoresAfterPut(TableOf(front), front, x);
    }
  }

  /** One `media[item.id] = item` keeps every earlier item that is the last
      with its id, apart from one with the new item's id, and stores the new
      item. */
  lemma StoresAfterPut(t: MediaTable, front: seq<MediaItem>, x: MediaItem)
    requires forall i :: 0 <= i < |front| && LastWithId(front, i) ==> Stores(t, front[i])
    ensures forall i :: 0 <= i < |front| + 1 && LastWithId(front + [x], i) ==> Stores(t.Put(x), (front + [x])[i])
  {
    var items := front + [x];
    forall i | 0 <= i < |items| && LastWithId(items, i)
      ensures Stores(t.Put(x), items[i])
    {
      if i < |front| {
        assert items[i] == front[i] && items[|front|] == x;
        assert forall j :: i < j < |front| ==> front[j] == items[j];
        assert LastWithId(front, i);
      }
    }
  }

  lemma {:induction false} TableOrder(items: seq<MediaItem>)
    ensures forall k :: k in TableOf(items).order ==> k in Ids(items)
    ensures forall p, q :: 0 <= p < q < |TableOf(items).order| ==>
      FirstIndex(Ids(items), TableOf(items).order[p]) < FirstIndex(Ids(items), TableOf(items).order[q])
  {
    if items != [] {
      var n := |items|;
      var front, x := items[..n - 1], items[n - 1];
      var t0, ids0 := TableOf(front), Ids(front);
      TableOrder(front);
      TableKeys(front);
      assert Ids(items) == ids0 + [x.id];
      OrderAfterPut(t0, ids0, x);
    }
  }

  /** One `media[item.id] = item` keeps the key order sorted by first
      occurrence in the id list. */
  lemma OrderAfterPut(t: MediaTable, ids: seq<string>, x: MediaItem)
    requires t.Valid() && forall k :: k in t.items <==> k in ids
    requires forall p, q :: 0 <= p < q < |t.order| ==> FirstIndex(ids, t.order[p]) < FirstIndex(ids, t.order[q])
    ensures var t', ids' := t.Put(x), ids + [x.id];
      && (forall k :: k in t'.order ==> k in ids')
      && forall p, q :: 0 <= p < q < |t'.order| ==> FirstIndex(ids', t'.order[p]) < FirstIndex(ids', t'.order[q])
  {
    var t', ids' := t.Put(x), ids + [x.id];
    forall p, q | 0 <= p < q < |t'.order|
      ensures FirstIndex(ids', t'.order[p]) < FirstIndex(ids', t'.order[q])
    {
      assert t.order[p] in t.items;
      FirstIndexSnoc(ids, x.id, t.order[p]);
      if q < |t.order| {
        assert t.order[q] in t.items;
        FirstIndexSnoc(ids, x.id, t.order[q]);
      } else {
        FirstIndexSnoc(ids, x.id, x.id);
      }
    }
  }

  lemma FirstIndexSnoc(ids: seq<string>, last: string, k: string)
    requires k in ids || k == last
    ensures k in ids ==> FirstIndex(ids + [last], k) == FirstIndex(ids, k)
    ensures k !in ids ==> FirstIndex(ids + [last], k) == |ids|
  {
    assert (ids + [last])[..|ids|] == ids;
  }

  /** When the ids are all different (as in any list `to_dict` wrote),
      every item is stored under its own id ... */
  lemma TableDistinctItems(items: seq<MediaItem>)
    requires Distinct(Ids(items))
    ensures forall i :: 0 <= i < |items| ==>
      Stores(TableOf(items), items[i])
  {
    TableLastWins(items);
    DistinctIdsAreLast(items);
  }

  lemma DistinctIdsAreLast(items: seq<MediaItem>)
    requires Distinct(Ids(items))
    ensures forall i :: 0 <= i < |items| ==> LastWithId(items, i)
  {
    var ids := Ids(items);
    forall i, j | 0 <= i < j < |items|
      ensures items[j].id != items[i].id
    {
      assert ids[i] != ids[j];
    }
  }

  /** ... and the key order is the id list itself. */
  lemma {:induction false} TableDistinctOrder(items: seq<MediaItem>)
    requires Distinct(Ids(items))
    ensures TableOf(items).order == Ids(items)
  {
    if items != [] {
      var n := |items|;
      var front := items[..n - 1];
      var ids, ids0 := Ids(items), Ids(front);
      assert ids == ids0 + [items[n - 1].id];
      assert Distinct(ids0);
      TableDistinctOrder(front);
      TableKeys(front);
      assert items[n - 1].id !in ids0;
    }
  }

  /** The table without its most recently inserted key. */
  function DropLast(t: MediaTable): (f: MediaTable)
    requires t.Valid() && |t.order| > 0
    ensures f.Valid()
    ensures f.order == t.order[..|t.order| - 1]
    ensures f.items == t.items - {t.order[|t.order| - 1]}
  {
    var n := |t.order|;
    var k := t.order[n - 1];
    var f := MediaTable(t.order[..n - 1], t.items - {k});
    assert forall j :: j in f.items ==> j in f.order by {
      forall j | j in f.items ensures j in f.order {
        var i :| 0 <= i < n && t.order[i] == j;
        assert i != n - 1;
      }
    }
    f
  }

  /** Re-inserting a table's values in order rebuilds the same table: the
      keys, the items and the order all come back. */
  lemma {:induction false} TableOfValues(t: MediaTable)
    requires t.Valid()
    ensures TableOf(t.Values()) == t
    decreases |t.order|
  {
    var n := |t.order|;
    if n == 0 {
      assert t.items == map[];
    } else {
      var k := t.order[n - 1];
      var front := DropLast(t);
      var vs := t.Values();
      var item := t.items[k];
      assert TableOf(vs) == front.Put(item) by {
        assert vs[..n - 1] == front.Values();
        TableOfValues(front);
        TableOfSnoc(vs);
      }
      assert front.Put(item) == t by {
        assert item.id == k;
        assert k !in front.items;
        SnocOfFront(t.order);
        ReinsertKey(t.items, k);
      }
    }
  }

  lemma TableOfSnoc(vs: seq<MediaItem>)
    requires |vs| > 0
    ensures TableOf(vs) == TableOf(vs[..|vs| - 1]).Put(vs[|vs| - 1])
  {
  }

  lemma SnocOfFront<T>(s: seq<T>)
    requires |s| > 0
    ensures s[..|s| - 1] + [s[|s| - 1]] == s
  {
  }

  lemma ReinsertKey<K, V>(m: map<K, V>, k: K)
    requires k in m
    ensures (m - {k})[k := m[k]] == m
  {
  }
}
