/**
 * The bolt-backed item store (modules/store/handlers/boltdb).
 *
 * Every item lives in the single bucket "main" under namespace_id. The
 * bucket is created by the first Create; Update, Delete, Read and List
 * fail while it is missing. A failed transaction leaves the bucket as it
 * was. List walks the bucket from its last key to its first, skips
 * Page*Limit entries and unmarshals the rest into the caller's items.
 *
 * Items are known by namespace, id and the interfaces they implement; the
 * bytes an item marshals to, the fresh id, the write error and the
 * unmarshal outcomes are parameters. The cursor order is given as the
 * bucket's keys in bolt's key order.
 */
module BoltDb {
  import opened Wrappers
  import Protocols

  type Bytes = seq<Protocols.byte>
  type Bucket = map<string, Bytes>

  const ErrBucketMissing := "Bucket does not exist"
  const ErrBucketNotFound := "bucket not found"
  const ErrUnsupported := "unsupported object type"
  const ErrIndexOutOfRange := "index out of range"

  /**
   * An item: its key parts, whether it implements IdSetter and Exportable,
   * and what its Marshal returns.
   */
  datatype Item = Item(namespace: string, id: string, idSetter: bool, exportable: bool, marshalled: Result<Bytes>)

  /** storeKey: namespace, "_", id. */
  function StoreKey(i: Item): (r: string)
    ensures r == i.namespace + "_" + i.id
    ensures |r| == |i.namespace| + 1 + |i.id| && r[|i.namespace|] == '_'
  {
    i.namespace + "_" + i.id
  }

  /** The item as Create sees it after SetId. */
  function WithNewId(i: Item, newId: string): (r: Item)
    ensures r.id == (if i.idSetter then newId else i.id)
    ensures r.namespace == i.namespace && r.exportable == i.exportable && r.marshalled == i.marshalled
  {
    if i.idSetter then i.(id := newId) else i
  }

  /** string(val) shortened for an error message: past 15 bytes, the first 12 and "...". */
  function Abbrev(v: Bytes): (r: string)
    ensures |v| <= 15 ==> |r| == |v|
    ensures |v| > 15 ==> |r| == 15 && r[12..] == "..."
  {
    var s := seq(|v|, k requires 0 <= k < |v| => (v[k] as int) as char);
    if |s| > 15 then s[0..12] + "..." else s
  }

  /** The error Create and Update return when the write transaction fails. */
  function SetErr(key: string, val: Bytes, err: string): string
  {
    "error setting key " + key + " to " + Abbrev(val) + ": " + err
  }

  class BoltStore {
    /** The "main" bucket, if it was created. */
    var bucket: Option<Bucket>

    constructor ()
      ensures bucket.None?
    {
      bucket := None;
    }

    /**
     * Create: set a fresh id on IdSetter items, refuse items that are not
     * Exportable, marshal, then in one transaction create the bucket if
     * needed and put the value. `putErr` is the transaction's failure.
     */
    method Create(i0: Item, newId: string, putErr: Option<string>) returns (err: Option<string>)
      modifies this
      ensures var i := WithNewId(i0, newId);
        if !i.exportable then err == Some(ErrUnsupported) && bucket == old(bucket)
        else if i.marshalled.Err? then err == Some("error marshalling key " + StoreKey(i) + ": " + i.marshalled.error) && bucket == old(bucket)
        else if putErr.Some? then err == Some(SetErr(StoreKey(i), i.marshalled.value, putErr.value)) && bucket == old(bucket)
        else err.None? && bucket == Some(old(bucket).GetOr(map[])[StoreKey(i) := i.marshalled.value])
    {
      var i := WithNewId(i0, newId);
      if !i.exportable {
        return Some(ErrUnsupported);
      }
      if i.marshalled.Err? {
        return Some("error marshalling key " + StoreKey(i) + ": " + i.marshalled.error);
      }
      var val := i.marshalled.value;
      if putErr.Some? {
        return Some(SetErr(StoreKey(i), val, putErr.value));
      }
      var bkt := if bucket.Some? then bucket.value else map[];
      bucket := Some(bkt[StoreKey(i) := val]);
      return None;
    }

    /** Update: as Create, but the bucket must exist and no id is assigned. */
    method Update(i: Item, putErr: Option<string>) returns (err: Option<string>)
      modifies this
      ensures !i.exportable ==> err == Some(ErrUnsupported) && bucket == old(bucket)
      ensures i.exportable && i.marshalled.Err? ==> err == Some("error marshalling key " + StoreKey(i) + ": " + i.marshalled.error) && bucket == old(bucket)
      ensures i.exportable && i.marshalled.Ok? && old(bucket).None? ==>
        err == Some(SetErr(StoreKey(i), i.marshalled.value, ErrBucketMissing)) && bucket == old(bucket)
      ensures i.exportable && i.marshalled.Ok? && old(bucket).Some? && putErr.Some? ==>
        err == Some(SetErr(StoreKey(i), i.marshalled.value, putErr.value)) && bucket == old(bucket)
      ensures i.exportable && i.marshalled.Ok? && old(bucket).Some? && putErr.None? ==>
        err.None? && bucket == Some(old(bucket).value[StoreKey(i) := i.marshalled.value])
    {
      if !i.exportable {
        return Some(ErrUnsupported);
      }
      if i.marshalled.Err? {
        return Some("error marshalling key " + StoreKey(i) + ": " + i.marshalled.error);
      }
      var val := i.marshalled.value;
      if bucket.None? {
        return Some(SetErr(StoreKey(i), val, ErrBucketMissing));
      }
      if putErr.Some? {
        return Some(SetErr(StoreKey(i), val, putErr.value));
      }
      bucket := Some(bucket.value[StoreKey(i) := val]);
      return None;
    }

    /** Delete: remove the key from an existing bucket (a missing key is not an error). */
    method Delete(i: Item) returns (err: Option<string>)
      modifies this
      ensures old(bucket).None? ==> err == Some(ErrBucketMissing) && bucket == old(bucket)
      ensures old(bucket).Some? ==> err.None? && bucket == Some(old(bucket).value - {StoreKey(i)})
    {
      if bucket.None? {
        return Some(ErrBucketMissing);
      }
      bucket := Some(bucket.value - {StoreKey(i)});
      return None;
    }

    /**
     * Read: the stored bytes, handed to the item's Unmarshal; the result
     * is the bytes the item was filled from.
     */
    method Read(i: Item, unmarshalErr: Option<string>) returns (r: Result<Bytes>)
      ensures r == ReadResult(bucket, i, unmarshalErr)
    {
      if bucket.None? {
        return Err(ErrBucketNotFound);
      }
      if StoreKey(i) !in bucket.value {
        return Err("error getting key " + StoreKey(i));
      }
      var val := bucket.value[StoreKey(i)];
      if !i.exportable {
        return Err(ErrUnsupported);
      }
      if unmarshalErr.Some? {
        return Err("error unmarshalling data " + Abbrev(val) + " to " + StoreKey(i) + ": " + unmarshalErr.value);
      }
      return Ok(val);
    }
  }

  /** What Read gives on a given bucket. */
  function ReadResult(bucket: Option<Bucket>, i: Item, unmarshalErr: Option<string>): (r: Result<Bytes>)
    ensures bucket.None? ==> r == Err(ErrBucketNotFound)
    ensures bucket.Some? && StoreKey(i) !in bucket.value ==> r == Err("error getting key " + StoreKey(i))
    ensures r.Ok? <==> bucket.Some? && StoreKey(i) in bucket.value && i.exportable && unmarshalErr.None?
    ensures r.Ok? ==> r.value == bucket.value[StoreKey(i)]
  {
    if bucket.None? then Err(ErrBucketNotFound)
    else if StoreKey(i) !in bucket.value then Err("error getting key " + StoreKey(i))
    else if !i.exportable then Err(ErrUnsupported)
    else if unmarshalErr.Some? then Err("error unmarshalling data " + Abbrev(bucket.value[StoreKey(i)]) + " to " + StoreKey(i) + ": " + unmarshalErr.value)
    else Ok(bucket.value[StoreKey(i)])
  }

  /** A created item reads back as the bytes it marshalled to, under its new id. */
  method CreateThenRead(i0: Item, newId: string, val: Bytes) returns (r: Result<Bytes>)
    requires i0.exportable && i0.marshalled == Ok(val)
    ensures r == Ok(val)
  {
    var s := new BoltStore();
    var err := s.Create(i0, newId, None);
    r := s.Read(WithNewId(i0, newId), None);
  }

  /** Update and Delete on a store whose bucket was never created fail and change nothing. */
  method FreshStoreRefuses(i: Item, val: Bytes) returns (upd: Option<string>, del: Option<string>, rd: Result<Bytes>)
    requires i.exportable && i.marshalled == Ok(val)
    ensures upd == Some(SetErr(StoreKey(i), val, ErrBucketMissing))
    ensures del == Some(ErrBucketMissing) && rd == Err(ErrBucketNotFound)
  {
    var s := new BoltStore();
    upd := s.Update(i, None);
    del := s.Delete(i);
    rd := s.Read(i, None);
  }

  /** Deleting an item makes it unreadable and leaves every other key as it was. */
  lemma ReadAfterDelete(b: Bucket, i: Item, j: Item, unmarshalErr: Option<string>)
    requires StoreKey(j) != StoreKey(i)
    ensures ReadResult(Some(b - {StoreKey(i)}), i, unmarshalErr) == Err("error getting key " + StoreKey(i))
    ensures ReadResult(Some(b - {StoreKey(i)}), j, unmarshalErr) == ReadResult(Some(b), j, unmarshalErr)
  {
  }

  // ---------------------------------------------------------------------
  // List

  /** One of the caller's items: whether it is Exportable and what its Unmarshal returns. */
  datatype Slot = Slot(exportable: bool, unmarshalErr: Option<string>)

  /** The paging options. */
  datatype ListOpt = ListOpt(page: int, limit: int)

  /**
   * What List gives: the number of items filled with the error that
   * stopped it (if any), or a panic from indexing past the caller's items.
   */
  /** What List returns, or that it panics, or that it never returns (a goroutine blocks for good). */
  datatype Listed = Listed(n: nat, err: Option<string>) | Panic(msg: string) | Hang

  /** The keys `cursor` lists, from last to first. */
  function Reversed(cursor: seq<string>): (r: seq<string>)
    ensures |r| == |cursor| && forall k :: 0 <= k < |r| ==> r[k] == cursor[|cursor| - 1 - k]
  {
    seq(|cursor|, k requires 0 <= k < |cursor| => cursor[|cursor| - 1 - k])
  }

  /** The cursor covers the bucket: each key once. */
  ghost predicate CursorOf(b: Bucket, cursor: seq<string>)
  {
    Distinct(cursor) && forall k :: k in cursor <==> k in b
  }

  /** The number of entries skipped: `skip` (Page*Limit) when positive, at most all of them. */
  function Skipped(skip: int, total: nat): (r: nat)
    ensures r <= total
    ensures skip <= 0 ==> r == 0
    ensures 0 < skip <= total ==> r == skip
  {
    if skip <= 0 then 0 else if skip > total then total else skip
  }

  /**
   * Filling the items from position `idx` with the entries `rest`: each
   * entry goes into the next item, stopping at an item that is not
   * Exportable or fails to unmarshal; `cap` (when given) bounds the count.
   */
  function Fill(l: seq<Slot>, rest: nat, idx: nat, cap: Option<nat>): (r: Listed)
    ensures r.Listed? ==> idx <= r.n <= idx + rest
    ensures r.Listed? && cap.Some? && idx <= cap.value ==> r.n <= cap.value
    ensures !r.Hang?
    decreases rest
  {
    if rest == 0 || (cap.Some? && idx >= cap.value) then Listed(idx, None)
    else if idx >= |l| then Panic(ErrIndexOutOfRange)
    else if !l[idx].exportable then Listed(idx, Some(ErrUnsupported))
    else if l[idx].unmarshalErr.Some? then Listed(idx, Some(l[idx].unmarshalErr.value))
    else Fill(l, rest - 1, idx + 1, cap)
  }

  /** The error List returns when the caller passes fewer items than Limit. */
  function ErrInsufficient(o: ListOpt, have: nat): string
  {
    "error insufficient items in array to unmarshal required " + Decimal(o.limit) + " got " + Decimal(have)
  }

  /** List over a bucket, as written (no cap) or corrected (capped at Limit). */
  function ListSpec(bucket: Option<Bucket>, cursor: seq<string>, l: seq<Slot>, o: ListOpt, capped: bool): (r: Listed)
    ensures |l| < o.limit ==> r == Listed(0, Some(ErrInsufficient(o, |l|)))
    ensures |l| >= o.limit && bucket.None? ==> r == Listed(0, Some(ErrBucketNotFound))
    ensures r.Listed? ==> r.n <= |cursor|
    ensures r.Listed? && capped && 0 <= o.limit ==> r.n <= o.limit
    ensures !r.Hang?
  {
    if |l| < o.limit then Listed(0, Some(ErrInsufficient(o, |l|)))
    else if bucket.None? then Listed(0, Some(ErrBucketNotFound))
    else Fill(l, |cursor| - Skipped(o.page * o.limit, |cursor|), 0, if capped && o.limit >= 0 then Some(o.limit) else None)
  }

  /**
   * List as written: the reverse cursor walk with skip-- and idx++ and no
   * stop at Limit. `given` is what each filled item was unmarshalled from.
   */
  method ListAsWritten(bucket: Option<Bucket>, cursor: seq<string>, l: seq<Slot>, o: ListOpt)
    returns (r: Listed, given: seq<Bytes>)
    requires bucket.Some? ==> CursorOf(bucket.value, cursor)
    ensures r == ListSpec(bucket, cursor, l, o, false)
    ensures r.Listed? && bucket.Some? && |l| >= o.limit ==> |given| == r.n
    ensures r.Listed? && bucket.Some? && |l| >= o.limit ==>
      (forall k :: 0 <= k < r.n ==> given[k] == bucket.value[Reversed(cursor)[Skipped(o.page * o.limit, |cursor|) + k]])
  {
    r, given := Walk(bucket, cursor, l, o, false);
  }

  /** List corrected: the walk also stops once Limit items are filled. */
  method List(bucket: Option<Bucket>, cursor: seq<string>, l: seq<Slot>, o: ListOpt)
    returns (r: Listed, given: seq<Bytes>)
    requires bucket.Some? ==> CursorOf(bucket.value, cursor)
    ensures r == ListSpec(bucket, cursor, l, o, true)
    ensures r.Listed? && bucket.Some? && |l| >= o.limit ==> |given| == r.n
    ensures r.Listed? && bucket.Some? && |l| >= o.limit ==>
      (forall k :: 0 <= k < r.n ==> given[k] == bucket.value[Reversed(cursor)[Skipped(o.page * o.limit, |cursor|) + k]])
  {
    r, given := Walk(bucket, cursor, l, o, true);
  }

  /** The shared walk; `capped` adds the stop at Limit. */
  method Walk(bucket: Option<Bucket>, cursor: seq<string>, l: seq<Slot>, o: ListOpt, capped: bool)
    returns (r: Listed, given: seq<Bytes>)
    requires bucket.Some? ==> CursorOf(bucket.value, cursor)
    ensures r == ListSpec(bucket, cursor, l, o, capped)
    ensures r.Listed? && bucket.Some? && |l| >= o.limit ==> |given| == r.n
    ensures r.Listed? && bucket.Some? && |l| >= o.limit ==>
      (forall k :: 0 <= k < r.n ==> given[k] == bucket.value[Reversed(cursor)[Skipped(o.page * o.limit, |cursor|) + k]])
  {
    given := [];
    if |l| < o.limit {
      return Listed(0, Some(ErrInsufficient(o, |l|))), given;
    }
    if bucket.None? {
      return Listed(0, Some(ErrBucketNotFound)), given;
    }
    var b := bucket.value;
    var cap := if capped && o.limit >= 0 then Some(o.limit) else None;
    var skip := o.page * o.limit;
    ghost var skip0 := skip;
    var idx := 0;
    var pos := |cursor|;
    ghost var s := Skipped(skip0, |cursor|);
    while pos > 0
      invariant 0 <= pos <= |cursor|
      invariant skip > 0 ==> idx == 0 && |cursor| - pos + skip == skip0 && (pos > 0 ==> |cursor| - pos < s)
      invariant skip <= 0 ==> |cursor| - pos == s + idx
      invariant |given| == idx
      invariant forall k :: 0 <= k < idx ==> given[k] == b[Reversed(cursor)[s + k]]
      invariant skip <= 0 ==> Fill(l, |cursor| - s, 0, cap) == Fill(l, pos, idx, cap)
      decreases pos
    {
      if skip > 0 {
        skip := skip - 1;
        pos := pos - 1;
        continue;
      }
      if cap.Some? && idx >= cap.value {
        break;
      }
      if idx >= |l| {
        return Panic(ErrIndexOutOfRange), given;
      }
      if !l[idx].exportable {
        return Listed(idx, Some(ErrUnsupported)), given;
      }
      if l[idx].unmarshalErr.Some? {
        return Listed(idx, Some(l[idx].unmarshalErr.value)), given;
      }
      pos := pos - 1;
      assert cursor[pos] in b;
      given := given + [b[cursor[pos]]];
      idx := idx + 1;
    }
    return Listed(idx, None), given;
  }

  /** Items that all take whatever they are given. */
  predicate AllAccept(l: seq<Slot>)
  {
    forall k :: 0 <= k < |l| ==> l[k].exportable && l[k].unmarshalErr.None?
  }

  /** Into accepting items the uncapped walk fills one per entry, and panics once the entries outnumber the items. */
  lemma {:induction false} FillUncapped(l: seq<Slot>, rest: nat, idx: nat)
    requires AllAccept(l)
    ensures Fill(l, rest, idx, None) == if idx + rest <= |l| || rest == 0 then Listed(idx + rest, None) else Panic(ErrIndexOutOfRange)
    decreases rest
  {
    if rest > 0 && idx < |l| {
      FillUncapped(l, rest - 1, idx + 1);
    }
  }

  /** Into accepting items the capped walk fills min(rest, cap - idx) and never panics while cap <= |l|. */
  lemma {:induction false} FillCapped(l: seq<Slot>, rest: nat, idx: nat, cap: nat)
    requires AllAccept(l) && idx <= cap <= |l|
    ensures Fill(l, rest, idx, Some(cap)) == Listed(if idx + rest <= cap then idx + rest else cap, None)
    decreases rest
  {
    if rest > 0 && idx < cap {
      FillCapped(l, rest - 1, idx + 1, cap);
    }
  }

  /**
   * As written, List panics when more entries remain after the skip than
   * the caller passed items: Limit 1, page 0, one item, two stored keys.
   */
  lemma ListAsWrittenPanics(b: Bucket, cursor: seq<string>, l: seq<Slot>, o: ListOpt)
    requires AllAccept(l) && |l| >= o.limit
    requires |cursor| - Skipped(o.page * o.limit, |cursor|) > |l|
    ensures ListSpec(Some(b), cursor, l, o, false) == Panic(ErrIndexOutOfRange)
  {
    FillUncapped(l, |cursor| - Skipped(o.page * o.limit, |cursor|), 0);
  }

  /** The concrete case. */
  lemma ListAsWrittenPanicsOnTwoKeys()
    ensures ListSpec(Some(map["a_1" := [], "a_2" := []]), ["a_1", "a_2"], [Slot(true, None)], ListOpt(0, 1), false)
         == Panic(ErrIndexOutOfRange)
  {
    ListAsWrittenPanics(map["a_1" := [], "a_2" := []], ["a_1", "a_2"], [Slot(true, None)], ListOpt(0, 1));
  }

  /**
   * Corrected, List fills exactly min(Limit, entries after the skip) items
   * and never panics.
   */
  lemma ListFillsPage(b: Bucket, cursor: seq<string>, l: seq<Slot>, o: ListOpt)
    requires AllAccept(l) && 0 <= o.limit <= |l|
    ensures var rest := |cursor| - Skipped(o.page * o.limit, |cursor|);
      ListSpec(Some(b), cursor, l, o, true) == Listed(if rest <= o.limit then rest else o.limit, None)
  {
    FillCapped(l, |cursor| - Skipped(o.page * o.limit, |cursor|), 0, o.limit);
  }
}
