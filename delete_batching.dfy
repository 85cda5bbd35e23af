/**
 * The asset dialog's delete command, as far as it decides what to delete:
 * the data behind every selected file item is grouped by the data source
 * that owns it, so that each source receives one bulk delete; data that its
 * source refuses to delete produces an error notification instead, and data
 * without an owner is skipped.
 */
module DeleteBatching {
  import opened AssetDialogTypes

  /** A content-browser data source, by identity. */
  datatype DataSource = DataSource(name: string)

  /** One data source's view of a content-browser item, with the source that owns it, if any. */
  datatype ItemData = ItemData(owner: Option<DataSource>, virtualPath: string)

  /** A selected content-browser item: the data of every source that backs it. */
  datatype Item = Item(internalItems: seq<ItemData>)

  const CannotDeleteInPIEText: string := "Assets cannot be deleted while in PIE."

  /** The item data of all items, item by item, each item's data in order. */
  function Flatten(items: seq<Item>): (r: seq<ItemData>)
    ensures forall k, d :: 0 <= k < |items| && d in items[k].internalItems ==> d in r
    ensures forall d :: d in r ==> exists k :: 0 <= k < |items| && d in items[k].internalItems
  {
    if items == [] then []
    else Flatten(items[..|items| - 1]) + items[|items| - 1].internalItems
  }

  /** The source owns the datum and is willing to delete it. */
  predicate AcceptedBy(d: ItemData, source: DataSource, canDelete: (DataSource, ItemData) -> Verdict)
  {
    d.owner == Some(source) && canDelete(source, d).Valid?
  }

  /** The batch a source receives: the data it owns and accepts, in selection order. */
  function BatchFor(data: seq<ItemData>, source: DataSource, canDelete: (DataSource, ItemData) -> Verdict): (r: seq<ItemData>)
    ensures |r| <= |data|
  {
    if data == [] then []
    else
      var last := data[|data| - 1];
      BatchFor(data[..|data| - 1], source, canDelete) + if AcceptedBy(last, source, canDelete) then [last] else []
  }

  /** The error texts of the data that their owning source refuses to delete, in selection order. */
  function Refusals(data: seq<ItemData>, canDelete: (DataSource, ItemData) -> Verdict): (r: seq<string>)
    ensures |r| <= |data|
  {
    if data == [] then []
    else
      var last := data[|data| - 1];
      Refusals(data[..|data| - 1], canDelete) +
        match last.owner
        case Some(source) => (if canDelete(source, last).Invalid? then [canDelete(source, last).message] else [])
        case None => []
  }

  /** batches and notifications are what grouping the data seen so far produces. */
  ghost predicate Grouped(seen: seq<ItemData>, batches: map<DataSource, seq<ItemData>>, notifications: seq<string>,
                          canDelete: (DataSource, ItemData) -> Verdict)
  {
    && (forall s :: s in batches <==> BatchFor(seen, s, canDelete) != [])
    && (forall s :: s in batches ==> batches[s] == BatchFor(seen, s, canDelete))
    && notifications == Refusals(seen, canDelete)
  }

  lemma AcceptStep(seen: seq<ItemData>, batches: map<DataSource, seq<ItemData>>, notifications: seq<string>,
                   canDelete: (DataSource, ItemData) -> Verdict, d: ItemData, source: DataSource)
    requires Grouped(seen, batches, notifications, canDelete)
    requires d.owner == Some(source) && canDelete(source, d).Valid?
    ensures Grouped(seen + [d], batches[source := (if source in batches then batches[source] else []) + [d]],
                    notifications, canDelete)
  {
  }

  lemma SkipStep(seen: seq<ItemData>, batches: map<DataSource, seq<ItemData>>, notifications: seq<string>,
                 canDelete: (DataSource, ItemData) -> Verdict, d: ItemData)
    requires Grouped(seen, batches, notifications, canDelete)
    requires d.owner.Some? ==> canDelete(d.owner.value, d).Invalid?
    ensures Grouped(seen + [d], batches,
                    notifications + if d.owner.Some? then [canDelete(d.owner.value, d).message] else [],
                    canDelete)
  {
  }

  /**
   * Groups the data behind the selected files by owning source. While a
   * play-in-editor session runs nothing is grouped and a single
   * notification explains why. Otherwise a source has a batch exactly when
   * it accepts some datum it owns, its batch is the data it owns and
   * accepts in selection order, and every refusal yields its error text.
   */
  method ExecuteDelete(pieRunning: bool, selectedFiles: seq<Item>, canDelete: (DataSource, ItemData) -> Verdict)
    returns (batches: map<DataSource, seq<ItemData>>, notifications: seq<string>)
    ensures pieRunning ==> batches == map[] && notifications == [CannotDeleteInPIEText]
    ensures !pieRunning ==> forall s :: s in batches <==> BatchFor(Flatten(selectedFiles), s, canDelete) != []
    ensures !pieRunning ==> forall s :: s in batches ==> batches[s] == BatchFor(Flatten(selectedFiles), s, canDelete)
    ensures !pieRunning ==> notifications == Refusals(Flatten(selectedFiles), canDelete)
  {
    if pieRunning {
      batches := map[];
      notifications := [CannotDeleteInPIEText];
      return;
    }

    batches := map[];
    notifications := [];
    ghost var seen: seq<ItemData> := [];
    var i := 0;
    while i < |selectedFiles|
      invariant 0 <= i <= |selectedFiles|
      invariant seen == Flatten(selectedFiles[..i])
      invariant Grouped(seen, batches, notifications, canDelete)
    {
      var itemDataArray := selectedFiles[i].internalItems;
      var j := 0;
      while j < |itemDataArray|
        invariant 0 <= j <= |itemDataArray|
        invariant seen == Flatten(selectedFiles[..i]) + itemDataArray[..j]
        invariant Grouped(seen, batches, notifications, canDelete)
      {
        var itemData := itemDataArray[j];
        if itemData.owner.Some? {
          var itemDataSource := itemData.owner.value;
          var deleteCheck := canDelete(itemDataSource, itemData);
          if deleteCheck.Valid? {
            AcceptStep(seen, batches, notifications, canDelete, itemData, itemDataSource);
            var itemsForSource := if itemDataSource in batches then batches[itemDataSource] else [];
            batches := batches[itemDataSource := itemsForSource + [itemData]];
          } else {
            SkipStep(seen, batches, notifications, canDelete, itemData);
            notifications := notifications + [deleteCheck.message];
          }
        } else {
          SkipStep(seen, batches, notifications, canDelete, itemData);
        }
        assert itemDataArray[..j + 1] == itemDataArray[..j] + [itemData];
        seen := seen + [itemData];
        j := j + 1;
      }
      assert selectedFiles[..i + 1][..i] == selectedFiles[..i];
      assert itemDataArray[..j] == itemDataArray;
      i := i + 1;
    }
    assert selectedFiles[..i] == selectedFiles;
  }

  /** A datum is in a source's batch exactly when it was selected and that source owns and accepts it. */
  lemma {:induction false} BatchMembership(data: seq<ItemData>, source: DataSource,
                                           canDelete: (DataSource, ItemData) -> Verdict, d: ItemData)
    ensures d in BatchFor(data, source, canDelete) <==> d in data && AcceptedBy(d, source, canDelete)
  {
    if data != [] {
      var init := data[..|data| - 1];
      BatchMembership(init, source, canDelete, d);
      assert data == init + [data[|data| - 1]];
    }
  }

  /** No datum is sent to two different sources. */
  lemma BatchesDisjoint(data: seq<ItemData>, s: DataSource, t: DataSource,
                        canDelete: (DataSource, ItemData) -> Verdict, d: ItemData)
    requires s != t
    ensures !(d in BatchFor(data, s, canDelete) && d in BatchFor(data, t, canDelete))
  {
    BatchMembership(data, s, canDelete, d);
    BatchMembership(data, t, canDelete, d);
  }

  /** a can be obtained from b by deleting elements, so a keeps b's order. */
  predicate SubsequenceOf<T(==)>(a: seq<T>, b: seq<T>)
  {
    if a == [] then true
    else if b == [] then false
    else if a[|a| - 1] == b[|b| - 1] then SubsequenceOf(a[..|a| - 1], b[..|b| - 1])
    else SubsequenceOf(a, b[..|b| - 1])
  }

  /** A source's batch keeps the order in which its data were selected. */
  lemma {:induction false} BatchPreservesOrder(data: seq<ItemData>, source: DataSource,
                                               canDelete: (DataSource, ItemData) -> Verdict)
    ensures SubsequenceOf(BatchFor(data, source, canDelete), data)
  {
    if data != [] {
      var init := data[..|data| - 1];
      var last := data[|data| - 1];
      BatchPreservesOrder(init, source, canDelete);
      var b := BatchFor(data, source, canDelete);
      if AcceptedBy(last, source, canDelete) {
        assert b[..|b| - 1] == BatchFor(init, source, canDelete);
      } else {
        assert b == BatchFor(init, source, canDelete);
        if b != [] {
          BatchMembership(init, source, canDelete, b[|b| - 1]);
        }
      }
    }
  }
}
