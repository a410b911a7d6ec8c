/** The auto-paginating photo iterator `_iter_photos` (python/icloudbridge.py:983-1007):
    it asks for pages of 100 items at offsets 0, 100, 200, ... and yields each page as it
    arrives, until the offset passes the collection's `total`. A page source
    `fetch(offset)` stands for `get_photos(album_id, limit=100, offset=offset, ...)`: the
    decoded photos of that page, or the error the request or the decoding raised. */
module Paginator {
  import opened Wrappers
  import opened Errors

  /** The page size `limit = 100`. */
  const Limit: nat := 100

  /** The observable run of the iterator: everything it yielded, the offsets it
      requested in order, and the error that ended it early, if any. */
  datatype Run<T> = Run(items: seq<T>, offsets: seq<nat>, error: Option<Error>)

  function Then<T>(items: seq<T>, offsets: seq<nat>, r: Run<T>): Run<T> {
    Run(items + r.items, offsets + r.offsets, r.error)
  }

  /** The run from the request at `offset` on: the page is always requested; the loop
      stops after it once `offset + 100 >= total`. */
  function Paginate<T>(total: int, fetch: nat -> Result<seq<T>, Error>, offset: nat): Run<T>
    // Terminates because `total` is fixed here; the source re-reads it from every page.
    decreases total - offset
  {
    match fetch(offset)
    case Failure(e) => Run([], [offset], Some(e))
    case Success(page) =>
      if offset + Limit >= total then Run(page, [offset], None)
      else Then(page, [offset], Paginate(total, fetch, offset + Limit))
  }

  /** `_iter_photos`, with the pages it yields collected in order. */
  method IterPhotos<T>(total: int, fetch: nat -> Result<seq<T>, Error>)
    returns (items: seq<T>, offsets: seq<nat>, error: Option<Error>)
    ensures Run(items, offsets, error) == Paginate(total, fetch, 0)
  {
    items, offsets, error := [], [], None;
    var offset: nat := 0;
    while true
      invariant Paginate(total, fetch, 0) == Then(items, offsets, Paginate(total, fetch, offset))
      decreases total - offset
    {
      var page := fetch(offset);
      if page.Failure? {
        offsets := offsets + [offset];
        error := Some(page.error);
        return;
      }
      ghost var rest := Paginate(total, fetch, offset);
      ghost var items0, offsets0 := items, offsets;
      items := items + page.value;
      offsets := offsets + [offset];
      offset := offset + Limit;
      if offset >= total {
        assert rest == Run(page.value, [offset - Limit], None);
        break;
      }
      ghost var next := Paginate(total, fetch, offset);
      assert rest == Then(page.value, [offset - Limit], next);
      assert items0 + (page.value + next.items) == items + next.items;
      assert offsets0 + ([offset - Limit] + next.offsets) == offsets + next.offsets;
    }
  }

  /** The number of requests a run without errors needs for `remaining` items:
      `ceil(remaining / 100)`, and one request even for an empty collection. */
  function PageCount(remaining: int): (n: nat)
    ensures n >= 1
    ensures remaining <= Limit * n
    ensures n > 1 ==> remaining > Limit * (n - 1)
  {
    if remaining <= Limit then 1 else (remaining + Limit - 1) / Limit
  }

  /** The shape of every run: it requests consecutive pages `offset, offset + 100, ...`;
      every request but the last succeeded; a run ends with an error exactly when its last
      request failed, and otherwise after exactly `PageCount(total - offset)` requests. */
  lemma {:induction false} PaginateShape<T>(total: int, fetch: nat -> Result<seq<T>, Error>, offset: nat)
    ensures var r := Paginate(total, fetch, offset);
            && 1 <= |r.offsets| <= PageCount(total - offset)
            && (forall i :: 0 <= i < |r.offsets| ==> r.offsets[i] == offset + Limit * i)
            && (forall i :: 0 <= i < |r.offsets| - 1 ==> fetch(r.offsets[i]).Success?)
            && (r.error.Some? <==> fetch(r.offsets[|r.offsets| - 1]).Failure?)
            && (r.error.Some? ==> fetch(r.offsets[|r.offsets| - 1]) == Failure(r.error.value))
            && (r.error.None? ==> |r.offsets| == PageCount(total - offset))
    decreases total - offset
  {
    match fetch(offset)
    case Failure(e) =>
    case Success(page) =>
      if offset + Limit < total {
        PaginateShape(total, fetch, offset + Limit);
        var r := Paginate(total, fetch, offset);
        var tail := Paginate(total, fetch, offset + Limit);
        assert r.offsets == [offset] + tail.offsets;
        assert PageCount(total - offset) == PageCount(total - offset - Limit) + 1;
        forall i | 0 <= i < |r.offsets|
          ensures r.offsets[i] == offset + Limit * i
        {
          if i > 0 {
            assert r.offsets[i] == tail.offsets[i - 1];
          }
        }
      }
  }

  /** The pages at `offsets` laid end to end; a failed request contributes nothing. */
  function Batches<T>(fetch: nat -> Result<seq<T>, Error>, offsets: seq<nat>): seq<T> {
    if offsets == [] then []
    else (if fetch(offsets[0]).Success? then fetch(offsets[0]).value else []) + Batches(fetch, offsets[1..])
  }

  /** The iterator yields exactly the batches it received, in request order. */
  lemma {:induction false} YieldsBatchesInOrder<T>(total: int, fetch: nat -> Result<seq<T>, Error>, offset: nat)
    ensures Paginate(total, fetch, offset).items == Batches(fetch, Paginate(total, fetch, offset).offsets)
    decreases total - offset
  {
    var r := Paginate(total, fetch, offset);
    if fetch(offset).Success? && offset + Limit < total {
      YieldsBatchesInOrder(total, fetch, offset + Limit);
      assert r.offsets[1..] == Paginate(total, fetch, offset + Limit).offsets;
    }
  }

  /** When neither run fails, where the iterator stops depends on `total` alone, never
      on how long the batches are. */
  lemma {:induction false} StopDependsOnlyOnTotal<T>(total: int, f: nat -> Result<seq<T>, Error>,
                                                     g: nat -> Result<seq<T>, Error>, offset: nat)
    requires Paginate(total, f, offset).error.None? && Paginate(total, g, offset).error.None?
    ensures Paginate(total, f, offset).offsets == Paginate(total, g, offset).offsets
    decreases total - offset
  {
    if offset + Limit < total {
      StopDependsOnlyOnTotal(total, f, g, offset + Limit);
    }
  }

  /** A collection of 100 items or fewer (or a `total` of zero) costs exactly one request. */
  lemma SmallCollectionOneRequest<T>(total: int, fetch: nat -> Result<seq<T>, Error>)
    requires total <= Limit
    ensures Paginate(total, fetch, 0).offsets == [0]
    ensures fetch(0).Success? ==> Paginate(total, fetch, 0) == Run(fetch(0).value, [0], None)
  {
  }

  /** The slice of `coll` a well-behaved server returns for `offset`. */
  function Slice<T>(coll: seq<T>, offset: nat): (s: seq<T>)
    ensures |s| <= Limit
  {
    if offset >= |coll| then []
    else if offset + Limit >= |coll| then coll[offset..]
    else coll[offset..offset + Limit]
  }

  /** Against a server that serves consecutive slices of one collection and reports its
      size as `total`, the iterator yields the whole collection, in order, exactly once. */
  lemma {:induction false} SlicedCollectionYieldsAll<T>(coll: seq<T>, fetch: nat -> Result<seq<T>, Error>, offset: nat)
    requires forall o: nat :: fetch(o) == Success(Slice(coll, o))
    ensures var r := Paginate(|coll|, fetch, offset);
            r.error.None? && r.items == (if offset <= |coll| then coll[offset..] else [])
    decreases |coll| - offset
  {
    if offset + Limit < |coll| {
      SlicedCollectionYieldsAll(coll, fetch, offset + Limit);
      assert coll[offset..] == coll[offset..offset + Limit] + coll[offset + Limit..];
    }
  }

  /** So the iterator run from the start yields every item of the collection. */
  lemma IterYieldsCollection<T>(coll: seq<T>, fetch: nat -> Result<seq<T>, Error>)
    requires forall o: nat :: fetch(o) == Success(Slice(coll, o))
    ensures Paginate(|coll|, fetch, 0) == Run(coll, Paginate(|coll|, fetch, 0).offsets, None)
    ensures |Paginate(|coll|, fetch, 0).offsets| == PageCount(|coll|)
  {
    SlicedCollectionYieldsAll(coll, fetch, 0);
    PaginateShape(|coll|, fetch, 0);
  }
}
