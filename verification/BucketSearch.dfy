/** The paged bucket lookup (objectstoragebucket_adapter.go) against the paging rule of the
    bucket metrics endpoint. */
module BucketSearch {
  import opened Support

  const PAGE_SIZE := 100

  datatype Bucket = Bucket(name: string, deleted: bool, totalObjects: int, totalSizeBytes: int)

  predicate Hit(b: Bucket, name: string) { b.name == name && !b.deleted }

  /** One page of the metrics: 1-based number, empty when out of range. */
  function Page(all: seq<Bucket>, size: nat, number: nat): seq<Bucket>
    requires size > 0 && number > 0
  {
    var start := (number - 1) * size;
    if start >= |all| then []
    else all[start..if start + size <= |all| then start + size else |all|]
  }

  /** The flat scan: index of the first live bucket of that name, or the length. */
  function FirstHit(all: seq<Bucket>, name: string): (i: nat)
    ensures i <= |all|
    ensures i < |all| ==> Hit(all[i], name)
    ensures forall j :: 0 <= j < i ==> !Hit(all[j], name)
  {
    if all == [] || Hit(all[0], name) then 0 else 1 + FirstHit(all[1..], name)
  }

  /** The page the search ends on: the one holding the hit, or the first empty one. */
  function LastPage(all: seq<Bucket>, name: string): nat {
    if FirstHit(all, name) < |all| then FirstHit(all, name) / PAGE_SIZE + 1
    else (|all| + PAGE_SIZE - 1) / PAGE_SIZE + 1
  }

  lemma {:induction false} FirstHitUnique(all: seq<Bucket>, name: string, i: nat)
    requires i < |all| && Hit(all[i], name)
    requires forall j :: 0 <= j < i ==> !Hit(all[j], name)
    ensures FirstHit(all, name) == i
  {
    if i > 0 {
      assert !Hit(all[0], name);
      forall j | 0 <= j < i - 1 ensures !Hit(all[1..][j], name) {
        assert !Hit(all[j + 1], name);
      }
      FirstHitUnique(all[1..], name, i - 1);
    }
  }

  /** Page after page until one is empty. `failing` are the page requests the environment fails.
      The answer is the flat scan's, read from no page beyond the one that decides it; an error
      is returned exactly when a page the search needs fails. */
  method FindBucket(
    all: seq<Bucket>, name: string, failing: map<nat, FailStatus>) returns (r: Result<Option<Bucket>>, page: nat)
    ensures r.Ok? ==> page == LastPage(all, name)
    ensures r.Ok? ==> r.value == if FirstHit(all, name) < |all| then Some(all[FirstHit(all, name)]) else None
    ensures r.Ok? && r.value.Some? ==> r.value.value in all && r.value.value.name == name && !r.value.value.deleted
    ensures r.Ok? && r.value.None? ==> forall b :: b in all ==> b.name != name || b.deleted
    ensures r.Err? <==> exists p :: 1 <= p <= LastPage(all, name) && p in failing
    ensures r.Err? ==> page <= LastPage(all, name) && page in failing && r.error == Api(failing[page])
    ensures r.Err? ==> forall p :: 1 <= p < page ==> p !in failing
  {
    page := 1;
    while true
      invariant page >= 1 && (page - 1) * PAGE_SIZE < |all| + PAGE_SIZE
      invariant forall j :: 0 <= j < |all| && j < (page - 1) * PAGE_SIZE ==> !Hit(all[j], name)
      invariant forall p :: 1 <= p < page ==> p !in failing
      invariant page <= LastPage(all, name)
      decreases |all| + PAGE_SIZE - (page - 1) * PAGE_SIZE
    {
      if page in failing {
        return Err(Api(failing[page])), page;
      }
      var list := Page(all, PAGE_SIZE, page);
      var start := (page - 1) * PAGE_SIZE;
      if |list| == 0 {
        return Ok(None), page;
      }
      for i := 0 to |list|
        invariant forall j :: 0 <= j < start + i ==> !Hit(all[j], name)
      {
        assert list[i] == all[start + i];
        if list[i].name == name && !list[i].deleted {
          FirstHitUnique(all, name, start + i);
          return Ok(Some(list[i])), page;
        }
      }
      page := page + 1;
    }
  }
}
