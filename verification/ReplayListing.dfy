/** internal/runtime/runtime.go: filtering, sorting and paging of replay files. Times are nanoseconds;
    lower is strings.ToLower, of which nothing is assumed. */
module ReplayListing {
  import opened Basics

  datatype Entry = Entry(name: string, relativePath: string, sizeBytes: int, updatedAt: int)

  datatype Order = UpdatedAtDesc | UpdatedAtAsc | NameAsc | NameDesc

  const PAGE_SIZE_DEFAULT := 10
  const PAGE_SIZE_MAX := 50

  function ClampPageSize(value: int): (r: int)
    ensures 1 <= r <= PAGE_SIZE_MAX && (1 <= value <= PAGE_SIZE_MAX ==> r == value)
  {
    if value <= 0 then PAGE_SIZE_DEFAULT else if value > PAGE_SIZE_MAX then PAGE_SIZE_MAX else value
  }

  function ClampPage(value: int): (r: int)
    ensures r >= 1 && (value >= 1 ==> r == value)
  {
    if value <= 0 then 1 else value
  }

  function NormalizeSort(value: string): Order {
    var key := TrimSpace(value);
    if key == "updatedAtAsc" then UpdatedAtAsc
    else if key == "nameAsc" then NameAsc
    else if key == "nameDesc" then NameDesc
    else UpdatedAtDesc
  }

  // ---- the comparators ----

  /** strings.Compare: byte order of UTF-8 is code point order. */
  function Compare(a: string, b: string): (r: int)
    ensures -1 <= r <= 1
  {
    if a == [] then (if b == [] then 0 else -1)
    else if b == [] then 1
    else if a[0] != b[0] then (if a[0] < b[0] then -1 else 1)
    else Compare(a[1..], b[1..])
  }

  function CompareTimes(a: int, b: int): int { if a < b then -1 else if a > b then 1 else 0 }

  /** What the order looks at before it falls back on the relative path. */
  function ComparePrimary(order: Order, lower: string -> string, a: Entry, b: Entry): int {
    match order
    case UpdatedAtDesc => CompareTimes(b.updatedAt, a.updatedAt)
    case UpdatedAtAsc => CompareTimes(a.updatedAt, b.updatedAt)
    case NameAsc => Compare(lower(a.name), lower(b.name))
    case NameDesc => -Compare(lower(a.name), lower(b.name))
  }

  function CompareEntries(order: Order, lower: string -> string, a: Entry, b: Entry): int {
    var first := ComparePrimary(order, lower, a, b);
    if first != 0 then first else Compare(a.relativePath, b.relativePath)
  }

  lemma {:induction false} CompareFlips(a: string, b: string)
    ensures Compare(a, b) == -Compare(b, a)
    ensures Compare(a, b) == 0 <==> a == b
  {
    if a != [] && b != [] && a[0] == b[0] {
      CompareFlips(a[1..], b[1..]);
      assert a == [a[0]] + a[1..] && b == [b[0]] + b[1..];
    }
  }

  lemma {:induction false} CompareTransitive(a: string, b: string, c: string)
    requires Compare(a, b) <= 0 && Compare(b, c) <= 0
    ensures Compare(a, c) <= 0
    ensures Compare(a, c) == 0 ==> Compare(a, b) == 0 && Compare(b, c) == 0
  {
    if a != [] && b != [] && c != [] && a[0] == b[0] == c[0] {
      CompareTransitive(a[1..], b[1..], c[1..]);
    }
  }

  /** Every comparator is antisymmetric, and equality means equal relative paths. */
  lemma EntriesFlip(order: Order, lower: string -> string, a: Entry, b: Entry)
    ensures CompareEntries(order, lower, a, b) == -CompareEntries(order, lower, b, a)
    ensures CompareEntries(order, lower, a, b) == 0 ==> a.relativePath == b.relativePath
  {
    CompareFlips(lower(a.name), lower(b.name));
    CompareFlips(a.relativePath, b.relativePath);
  }

  lemma PrimaryTransitive(order: Order, lower: string -> string, a: Entry, b: Entry, c: Entry)
    requires ComparePrimary(order, lower, a, b) <= 0 && ComparePrimary(order, lower, b, c) <= 0
    ensures ComparePrimary(order, lower, a, c) <= 0
    ensures ComparePrimary(order, lower, a, c) == 0 ==>
              ComparePrimary(order, lower, a, b) == 0 && ComparePrimary(order, lower, b, c) == 0
  {
    var x, y, z := lower(a.name), lower(b.name), lower(c.name);
    CompareFlips(x, y);
    CompareFlips(y, z);
    CompareFlips(x, z);
    if order.NameAsc? {
      CompareTransitive(x, y, z);
    } else if order.NameDesc? {
      CompareTransitive(z, y, x);
    }
  }

  lemma EntriesTransitive(order: Order, lower: string -> string, a: Entry, b: Entry, c: Entry)
    requires CompareEntries(order, lower, a, b) <= 0 && CompareEntries(order, lower, b, c) <= 0
    ensures CompareEntries(order, lower, a, c) <= 0
  {
    PrimaryTransitive(order, lower, a, b, c);
    if ComparePrimary(order, lower, a, c) == 0 {
      CompareTransitive(a.relativePath, b.relativePath, c.relativePath);
    }
  }

  // ---- sorting ----

  ghost predicate Sorted(order: Order, lower: string -> string, s: seq<Entry>) {
    forall i, j :: 0 <= i < j < |s| ==> CompareEntries(order, lower, s[i], s[j]) <= 0
  }

  /** Entries with the same relative path are the same entry, as in the result of one directory walk. */
  ghost predicate PathsIdentify(s: multiset<Entry>) {
    forall x, y :: x in s && y in s && x.relativePath == y.relativePath ==> x == y
  }

  /** Whatever sorting algorithm is used, there is only one sorted arrangement. */
  lemma {:induction false} SortUnique(order: Order, lower: string -> string, a: seq<Entry>, b: seq<Entry>)
    requires multiset(a) == multiset(b) && PathsIdentify(multiset(a))
    requires Sorted(order, lower, a) && Sorted(order, lower, b)
    ensures a == b
  {
    if a != [] && b != [] {
      FirstIsLeast(order, lower, a, b[0]);
      FirstIsLeast(order, lower, b, a[0]);
      EntriesFlip(order, lower, a[0], b[0]);
      assert a[0] == b[0];
      TailsAgree(a, b);
      SortUnique(order, lower, a[1..], b[1..]);
    } else {
      assert |multiset(a)| == |a| && |multiset(b)| == |b|;
    }
  }

  lemma TailsAgree(a: seq<Entry>, b: seq<Entry>)
    requires a != [] && b != [] && a[0] == b[0] && multiset(a) == multiset(b)
    ensures multiset(a[1..]) == multiset(b[1..]) && multiset(a[1..]) <= multiset(a)
  {
    assert a == [a[0]] + a[1..] && b == [b[0]] + b[1..];
    assert multiset(a[1..]) == multiset(a) - multiset{a[0]};
    assert multiset(b[1..]) == multiset(b) - multiset{b[0]};
  }

  lemma FirstIsLeast(order: Order, lower: string -> string, s: seq<Entry>, x: Entry)
    requires Sorted(order, lower, s) && s != [] && x in multiset(s)
    ensures CompareEntries(order, lower, s[0], x) <= 0
  {
    var i :| 0 <= i < |s| && s[i] == x;
    EntriesFlip(order, lower, s[0], s[0]);
  }

  function Insert(order: Order, lower: string -> string, x: Entry, s: seq<Entry>): (r: seq<Entry>)
    ensures multiset(r) == multiset{x} + multiset(s)
  {
    if s == [] then [x]
    else if CompareEntries(order, lower, x, s[0]) <= 0 then [x] + s
    else
      assert s == [s[0]] + s[1..];
      [s[0]] + Insert(order, lower, x, s[1..])
  }

  lemma FirstBeforeRest(order: Order, lower: string -> string, s: seq<Entry>, y: Entry)
    requires s != [] && Sorted(order, lower, s) && y in multiset(s[1..])
    ensures CompareEntries(order, lower, s[0], y) <= 0
  {
    var k :| 0 <= k < |s[1..]| && s[1..][k] == y;
    assert s[k + 1] == y;
  }

  lemma {:induction false} InsertSorted(order: Order, lower: string -> string, x: Entry, s: seq<Entry>)
    requires Sorted(order, lower, s)
    ensures Sorted(order, lower, Insert(order, lower, x, s))
  {
    if s == [] {
    } else if CompareEntries(order, lower, x, s[0]) <= 0 {
      forall j | 0 <= j < |s| ensures CompareEntries(order, lower, x, s[j]) <= 0 {
        if j > 0 {
          EntriesTransitive(order, lower, x, s[0], s[j]);
        }
      }
    } else {
      var rest := Insert(order, lower, x, s[1..]);
      InsertSorted(order, lower, x, s[1..]);
      EntriesFlip(order, lower, x, s[0]);
      forall j | 0 <= j < |rest| ensures CompareEntries(order, lower, s[0], rest[j]) <= 0 {
        assert rest[j] in multiset(rest);
        if rest[j] != x {
          FirstBeforeRest(order, lower, s, rest[j]);
        }
      }
    }
  }

  /** The sorted arrangement, by insertion. */
  function SortEntries(order: Order, lower: string -> string, s: seq<Entry>): (r: seq<Entry>)
    ensures multiset(r) == multiset(s)
  {
    if s == [] then []
    else
      assert s == [s[0]] + s[1..];
      Insert(order, lower, s[0], SortEntries(order, lower, s[1..]))
  }

  lemma {:induction false} SortEntriesSorted(order: Order, lower: string -> string, s: seq<Entry>)
    ensures Sorted(order, lower, SortEntries(order, lower, s))
  {
    if s == [] {
    } else {
      SortEntriesSorted(order, lower, s[1..]);
      InsertSorted(order, lower, s[0], SortEntries(order, lower, s[1..]));
    }
  }

  // ---- filtering ----

  predicate Contains(s: string, sub: string) {
    exists i :: 0 <= i <= |s| - |sub| && OccursAt(s, sub, i)
  }

  predicate OccursAt(s: string, sub: string, i: int)
    requires 0 <= i <= |s| - |sub|
  {
    s[i..i + |sub|] == sub
  }

  predicate Matches(lower: string -> string, search: string, e: Entry) {
    search == "" || Contains(lower(e.name), search) || Contains(lower(e.relativePath), search)
  }

  function Filter(lower: string -> string, search: string, s: seq<Entry>): seq<Entry> {
    if s == [] then []
    else
      Filter(lower, search, s[..|s| - 1])
      + if Matches(lower, search, s[|s| - 1]) then [s[|s| - 1]] else []
  }

  /** Filtering keeps exactly the matching entries, with multiplicity. */
  lemma {:induction false} FilterCounts(lower: string -> string, search: string, s: seq<Entry>, e: Entry)
    ensures multiset(Filter(lower, search, s))[e] == if Matches(lower, search, e) then multiset(s)[e] else 0
  {
    if s == [] {
    } else {
      FilterCounts(lower, search, s[..|s| - 1], e);
      assert s == s[..|s| - 1] + [s[|s| - 1]];
    }
  }

  /** What is listed depends only on which files were found, not on the order of the walk. */
  lemma ListingIndependentOfWalk(order: Order, lower: string -> string, search: string, a: seq<Entry>, b: seq<Entry>)
    requires multiset(a) == multiset(b) && PathsIdentify(multiset(a))
    ensures SortEntries(order, lower, Filter(lower, search, a)) == SortEntries(order, lower, Filter(lower, search, b))
  {
    var fa, fb := Filter(lower, search, a), Filter(lower, search, b);
    forall e ensures multiset(fa)[e] == multiset(fb)[e] && multiset(fa)[e] <= multiset(a)[e] {
      FilterCounts(lower, search, a, e);
      FilterCounts(lower, search, b, e);
    }
    assert multiset(fa) == multiset(fb);
    SortEntriesSorted(order, lower, fa);
    SortEntriesSorted(order, lower, fb);
    SortUnique(order, lower, SortEntries(order, lower, fa), SortEntries(order, lower, fb));
  }

  // ---- paging ----

  datatype Listing = Listing(files: seq<Entry>, page: int, pageSize: int, total: nat, totalPages: nat, hasMore: bool)

  function TotalPages(total: nat, size: int): nat
    requires size >= 1
  {
    if total > 0 then (total + size - 1) / size else 0
  }

  /** The page that starts at an offset, which is cut off at the end of the list. */
  function ListPage(sorted: seq<Entry>, offset: nat, page: int, size: int): Listing
    requires size >= 1
  {
    var total := |sorted|;
    var start := if offset > total then total else offset;
    var end := if start + size > total then total else start + size;
    Listing(sorted[start..end], page, size, total, TotalPages(total, size), end < total)
  }

  function ListAll(sorted: seq<Entry>, size: int): Listing {
    var total := |sorted|;
    Listing(sorted, 1, if total > 0 then total else size, total, if total > 0 then 1 else 0, false)
  }

  /** (page - 1) * pageSize as the program computes it. */
  function WrappedOffset(page: int, size: int): int { Wrap64((page - 1) * size) }

  /** slices.SortFunc with one of the comparators; callers may rely on the contract only. */
  method SortReplayFileEntries(files: array<Entry>, order: Order, lower: string -> string)
    modifies files
    ensures Sorted(order, lower, files[..]) && multiset(files[..]) == multiset(old(files[..]))
  {
    var sorted := SortEntries(order, lower, files[..]);
    SortEntriesSorted(order, lower, files[..]);
    SameSize(sorted, files[..]);
    forall i | 0 <= i < files.Length { files[i] := sorted[i]; }
    assert files[..] == sorted;
  }

  lemma SameSize(a: seq<Entry>, b: seq<Entry>)
    requires multiset(a) == multiset(b)
    ensures |a| == |b|
  {
    assert |multiset(a)| == |a| && |multiset(b)| == |b|;
  }

  /** A fresh array of the matching entries, in the cached order. */
  method FilterFiles(cached: array<Entry>, term: string, lower: string -> string) returns (files: array<Entry>)
    ensures fresh(files) && cached[..] == old(cached[..]) && files[..] == Filter(lower, term, cached[..])
  {
    var filtered: seq<Entry> := [];
    for i := 0 to cached.Length
      invariant filtered == Filter(lower, term, cached[..i])
    {
      assert cached[..i + 1][..i] == cached[..i];
      if Matches(lower, term, cached[i]) {
        filtered := filtered + [cached[i]];
      }
    }
    assert cached[..cached.Length] == cached[..];
    files := new Entry[|filtered|](i requires 0 <= i < |filtered| => filtered[i]);
    assert files[..] == filtered;
  }

  // ---- a listing in plain terms ----

  /** a stands before b in code point order: it is a proper prefix, or smaller at the first difference. */
  ghost predicate Before(a: string, b: string) {
    exists k: nat :: BeforeAt(a, b, k)
  }

  ghost predicate BeforeAt(a: string, b: string, k: nat) {
    && k <= |a| && k < |b| && (forall i :: 0 <= i < k ==> a[i] == b[i])
    && (k < |a| ==> a[k] < b[k])
  }

  lemma {:induction false} CompareBefore(a: string, b: string)
    ensures Compare(a, b) < 0 ==> Before(a, b)
  {
    if a == [] {
      assert b != [] ==> BeforeAt(a, b, 0);
    } else if b != [] && a[0] != b[0] {
      assert a[0] < b[0] ==> BeforeAt(a, b, 0);
    } else if b != [] {
      CompareBefore(a[1..], b[1..]);
      if Compare(a, b) < 0 {
        var k: nat :| BeforeAt(a[1..], b[1..], k);
        BeforeShift(a, b, k);
      }
    }
  }

  lemma BeforeShift(a: string, b: string, k: nat)
    requires a != [] && b != [] && a[0] == b[0]
    ensures BeforeAt(a[1..], b[1..], k) <==> BeforeAt(a, b, k + 1)
  {
    if BeforeAt(a[1..], b[1..], k) {
      forall i | 0 <= i < k + 1 ensures a[i] == b[i] {
        assert i > 0 ==> a[i] == a[1..][i - 1] && b[i] == b[1..][i - 1];
      }
    }
    if BeforeAt(a, b, k + 1) {
      forall i | 0 <= i < k ensures a[1..][i] == b[1..][i] {
        assert a[1..][i] == a[i + 1] && b[1..][i] == b[i + 1];
      }
    }
  }

  lemma {:induction false} BeforeCompare(a: string, b: string, k: nat)
    requires BeforeAt(a, b, k)
    ensures Compare(a, b) < 0
  {
    if k > 0 {
      assert a[0] == b[0];
      BeforeShift(a, b, k - 1);
      BeforeCompare(a[1..], b[1..], k - 1);
    }
  }

  /** The comparison of texts is code point order. */
  lemma CompareIs(a: string, b: string)
    ensures Compare(a, b) < 0 <==> Before(a, b)
    ensures Compare(a, b) == 0 <==> a == b
    ensures Compare(a, b) > 0 <==> Before(b, a)
  {
    CompareBefore(a, b);
    CompareBefore(b, a);
    CompareFlips(a, b);
    if Before(a, b) {
      var k: nat :| BeforeAt(a, b, k);
      BeforeCompare(a, b, k);
    }
    if Before(b, a) {
      var k: nat :| BeforeAt(b, a, k);
      BeforeCompare(b, a, k);
    }
  }

  /** e may stand before f: by the sort key, and between equals by the relative path. */
  ghost predicate MayPrecede(sortKey: string, lower: string -> string, e: Entry, f: Entry) {
    var path := e.relativePath == f.relativePath || Before(e.relativePath, f.relativePath);
    if TrimSpace(sortKey) == "updatedAtAsc" then e.updatedAt < f.updatedAt || (e.updatedAt == f.updatedAt && path)
    else if TrimSpace(sortKey) == "nameAsc" then
      Before(lower(e.name), lower(f.name)) || (lower(e.name) == lower(f.name) && path)
    else if TrimSpace(sortKey) == "nameDesc" then
      Before(lower(f.name), lower(e.name)) || (lower(e.name) == lower(f.name) && path)
    else e.updatedAt > f.updatedAt || (e.updatedAt == f.updatedAt && path)
  }

  lemma MayPrecedeIff(sortKey: string, lower: string -> string, e: Entry, f: Entry)
    ensures MayPrecede(sortKey, lower, e, f) <==> CompareEntries(NormalizeSort(sortKey), lower, e, f) <= 0
  {
    CompareIs(e.relativePath, f.relativePath);
    CompareIs(lower(e.name), lower(f.name));
  }

  /** The search term, lower-cased and without outer white space, occurs in the name or in the path. */
  ghost predicate Found(lower: string -> string, search: string, e: Entry) {
    var term := lower(TrimSpace(search));
    term == "" || Inside(term, lower(e.name)) || Inside(term, lower(e.relativePath))
  }

  ghost predicate Inside(sub: string, s: string) { exists x, y :: Parts(s, x, sub, y) }

  ghost predicate Parts(s: string, x: string, sub: string, y: string) { s == x + (sub + y) }

  lemma InsideIff(sub: string, s: string)
    ensures Inside(sub, s) <==> Contains(s, sub)
  {
    if Inside(sub, s) {
      var x, y :| Parts(s, x, sub, y);
      assert s[|x|..|x| + |sub|] == sub;
      assert OccursAt(s, sub, |x|);
    }
    if Contains(s, sub) {
      var i :| 0 <= i <= |s| - |sub| && OccursAt(s, sub, i);
      assert s == s[..i] + (s[i..i + |sub|] + s[i + |sub|..]);
      assert Parts(s, s[..i], sub, s[i + |sub|..]);
    }
  }

  lemma FoundIff(lower: string -> string, search: string, e: Entry)
    ensures Found(lower, search, e) <==> Matches(lower, lower(TrimSpace(search)), e)
  {
    InsideIff(lower(TrimSpace(search)), lower(e.name));
    InsideIff(lower(TrimSpace(search)), lower(e.relativePath));
  }

  /** sorted are the entries found among those cached, in the order the sort key asks for. */
  ghost predicate Selected(cached: seq<Entry>, search: string, sortKey: string, lower: string -> string, sorted: seq<Entry>) {
    && (forall e :: multiset(sorted)[e] == if Found(lower, search, e) then multiset(cached)[e] else 0)
    && (forall i, j :: 0 <= i < j < |sorted| ==> MayPrecede(sortKey, lower, sorted[i], sorted[j]))
  }

  lemma SortedSelected(cached: seq<Entry>, search: string, sortKey: string, lower: string -> string)
    ensures Selected(cached, search, sortKey, lower,
                     SortEntries(NormalizeSort(sortKey), lower, Filter(lower, lower(TrimSpace(search)), cached)))
  {
    var term, order := lower(TrimSpace(search)), NormalizeSort(sortKey);
    var sorted := SortEntries(order, lower, Filter(lower, term, cached));
    forall e ensures multiset(sorted)[e] == if Found(lower, search, e) then multiset(cached)[e] else 0 {
      FilterCounts(lower, term, cached, e);
      FoundIff(lower, search, e);
    }
    SortEntriesSorted(order, lower, Filter(lower, term, cached));
    forall i, j | 0 <= i < j < |sorted| ensures MayPrecede(sortKey, lower, sorted[i], sorted[j]) {
      MayPrecedeIff(sortKey, lower, sorted[i], sorted[j]);
    }
  }

  /** Page number page of a list, with size entries to a page. */
  ghost predicate IsPage(l: Listing, sorted: seq<Entry>, page: nat, size: nat)
    requires page >= 1
  {
    var offset := (page - 1) * size;
    && l.page == page && l.pageSize == size && l.total == |sorted|
    && (if |sorted| == 0 then l.totalPages == 0
        else (l.totalPages - 1) * size < |sorted| <= l.totalPages * size)
    && (l.hasMore <==> page * size < |sorted|)
    && |l.files| == (if |sorted| <= offset then 0 else if |sorted| <= offset + size then |sorted| - offset else size)
    && (forall i :: 0 <= i < |l.files| ==> l.files[i] == sorted[offset + i])
  }

  ghost predicate IsAll(l: Listing, sorted: seq<Entry>, size: nat) {
    && l.files == sorted && l.page == 1 && l.total == |sorted| && !l.hasMore
    && (if |sorted| == 0 then l.totalPages == 0 && l.pageSize == size else l.totalPages == 1 && l.pageSize == |sorted|)
  }

  lemma ListPageIsPage(sorted: seq<Entry>, page: nat, size: nat)
    requires page >= 1 && size >= 1
    ensures IsPage(ListPage(sorted, (page - 1) * size, page, size), sorted, page, size)
  {
    var offset := OffsetOf(page, size);
    if |sorted| > 0 {
      Ceiling(|sorted|, size);
    }
  }

  lemma Ceiling(total: nat, size: nat)
    requires total > 0 && size >= 1
    ensures var q := TotalPages(total, size); (q - 1) * size < total <= q * size
  {
    var q := TotalPages(total, size);
    assert q * size <= total + size - 1 < q * size + size;
    assert (q - 1) * size == q * size - size;
  }

  lemma Listed(sorted: seq<Entry>, cached: seq<Entry>, page: int, pageSize: int, search: string, sortKey: string,
               fetchAll: bool, lower: string -> string, r: Option<Listing>)
    requires Selected(cached, search, sortKey, lower, sorted)
    requires var offset := WrappedOffset(ClampPage(page), ClampPageSize(pageSize));
             r == if fetchAll then Some(ListAll(sorted, ClampPageSize(pageSize)))
                  else if offset < 0 then None
                  else Some(ListPage(sorted, offset, ClampPage(page), ClampPageSize(pageSize)))
    ensures IsListing(cached, page, pageSize, search, sortKey, fetchAll, lower, r)
  {
    var p, n := ClampPage(page), ClampPageSize(pageSize);
    Times(0, p - 1, n);
    ListPageIsPage(sorted, p, n);
  }

  /** What is listed: everything found, or the page asked for as long as its offset fits 64 bits; page and
      page size are brought into range first. */
  ghost predicate IsListing(cached: seq<Entry>, page: int, pageSize: int, search: string, sortKey: string,
                            fetchAll: bool, lower: string -> string, r: Option<Listing>) {
    var p := if page <= 0 then 1 else page;
    var n := if pageSize <= 0 then 10 else if pageSize > 50 then 50 else pageSize;
    exists sorted :: Selected(cached, search, sortKey, lower, sorted)
      && (fetchAll ==> r.Some? && IsAll(r.value, sorted, n))
      && (!fetchAll && (p - 1) * n < 0x8000_0000_0000_0000 ==> r.Some? && IsPage(r.value, sorted, p, n))
  }

  /** ListReplayFiles on the entries the cache or a walk delivered. Nothing stands for the run-time panic
      of a slice with a negative bound. The cached entries are only read. */
  method ListReplayFiles(cached: array<Entry>, page: int, pageSize: int, search: string, sortKey: string,
                         fetchAll: bool, lower: string -> string) returns (r: Option<Listing>)
    requires PathsIdentify(multiset(cached[..]))
    ensures cached[..] == old(cached[..])
    ensures var sorted := SortEntries(NormalizeSort(sortKey), lower, Filter(lower, lower(TrimSpace(search)), cached[..]));
            var size := ClampPageSize(pageSize);
            var offset := WrappedOffset(ClampPage(page), size);
            r == if fetchAll then Some(ListAll(sorted, size))
                 else if offset < 0 then None
                 else Some(ListPage(sorted, offset, ClampPage(page), size))
    ensures IsListing(cached[..], page, pageSize, search, sortKey, fetchAll, lower, r)
  {
    var term, order := lower(TrimSpace(search)), NormalizeSort(sortKey);
    var files := FilterFiles(cached, term, lower);
    SortReplayFileEntries(files, order, lower);
    SortedIsTheOne(order, lower, term, cached[..], files[..]);
    r := Paged(files, ClampPage(page), ClampPageSize(pageSize), fetchAll);
    SortedSelected(cached[..], search, sortKey, lower);
    Listed(files[..], cached[..], page, pageSize, search, sortKey, fetchAll, lower, r);
  }

  method Paged(files: array<Entry>, page: int, size: int, fetchAll: bool) returns (r: Option<Listing>)
    requires size >= 1
    ensures var offset := WrappedOffset(page, size);
            r == if fetchAll then Some(ListAll(files[..], size))
                 else if offset < 0 then None
                 else Some(ListPage(files[..], offset, page, size))
  {
    var total := files.Length;
    if fetchAll {
      return Some(Listing(files[..], 1, if total > 0 then total else size, total, if total > 0 then 1 else 0, false));
    }
    var start := WrappedOffset(page, size);
    if start > total {
      start := total;
    }
    var end := start + size;
    if end > total {
      end := total;
    }
    if start < 0 {
      return None;
    }
    assert files[start..end] == files[..][start..end];
    return Some(Listing(files[start..end], page, size, total, TotalPages(total, size), end < total));
  }

  lemma SortedIsTheOne(order: Order, lower: string -> string, search: string, cached: seq<Entry>, files: seq<Entry>)
    requires PathsIdentify(multiset(cached)) && Sorted(order, lower, files)
    requires multiset(files) == multiset(Filter(lower, search, cached))
    ensures files == SortEntries(order, lower, Filter(lower, search, cached))
  {
    var f := Filter(lower, search, cached);
    forall e ensures multiset(f)[e] <= multiset(cached)[e] { FilterCounts(lower, search, cached, e); }
    SortEntriesSorted(order, lower, f);
    SortUnique(order, lower, files, SortEntries(order, lower, f));
  }

  lemma CeilDiv(page: nat, size: nat, total: nat)
    requires size >= 1 && total > 0
    ensures page < TotalPages(total, size) <==> page * size < total
  {
    var q := TotalPages(total, size);
    assert q * size <= total + size - 1 < q * size + size;
    if page < q {
      Times(page, q - 1, size);
      assert (q - 1) * size == q * size - size;
    } else {
      Times(q, page, size);
    }
  }

  /** Page numbers from 1: there is more exactly before the last page, every page before the last is full,
      and pages after the last are empty. */
  lemma PageFacts(sorted: seq<Entry>, page: nat, size: nat)
    requires page >= 1 && size >= 1
    ensures var l := ListPage(sorted, (page - 1) * size, page, size);
            && (l.hasMore <==> page < l.totalPages)
            && (page < l.totalPages ==> |l.files| == size)
            && (page == l.totalPages ==> 1 <= |l.files| <= size)
            && (page > l.totalPages ==> l.files == [])
  {
    assert (page - 1) * size + size == page * size;
    if |sorted| > 0 {
      CeilDiv(page, size, |sorted|);
      CeilDiv(page - 1, size, |sorted|);
    }
  }

  /** Pages 1 to k, one after the other. */
  function PagesUpTo(sorted: seq<Entry>, k: nat, size: nat): seq<Entry>
    requires size >= 1
  {
    if k == 0 then [] else PagesUpTo(sorted, k - 1, size) + ListPage(sorted, (k - 1) * size, k, size).files
  }

  function FirstItems(sorted: seq<Entry>, n: nat): seq<Entry> { sorted[..if n < |sorted| then n else |sorted|] }

  lemma NextPage(sorted: seq<Entry>, offset: nat, k: nat, size: nat)
    requires size >= 1
    ensures FirstItems(sorted, offset) + ListPage(sorted, offset, k, size).files == FirstItems(sorted, offset + size)
  {
  }

  lemma OffsetOf(k: nat, size: nat) returns (offset: nat)
    requires k > 0
    ensures offset == (k - 1) * size && k * size == offset + size
  {
    offset := (k - 1) * size;
    assert k * size == (k - 1 + 1) * size;
  }

  lemma {:induction false} PagesArePrefixes(sorted: seq<Entry>, k: nat, size: nat)
    requires size >= 1
    ensures PagesUpTo(sorted, k, size) == FirstItems(sorted, k * size)
  {
    if k == 0 {
    } else {
      PagesArePrefixes(sorted, k - 1, size);
      var offset := OffsetOf(k, size);
      NextPage(sorted, offset, k, size);
    }
  }

  /** The pages together are the whole sorted list. */
  lemma PagesConcatenate(sorted: seq<Entry>, size: nat)
    requires size >= 1
    ensures PagesUpTo(sorted, TotalPages(|sorted|, size), size) == sorted
  {
    PagesArePrefixes(sorted, TotalPages(|sorted|, size), size);
    if |sorted| > 0 {
      CeilDiv(TotalPages(|sorted|, size), size, |sorted|);
    }
  }

  /** The program delivers the right page, rather than panicking or showing another one, exactly when
      (page - 1) * pageSize fits 64 bits or wraps to an offset past the end of the list. */
  lemma RightPageIff(sorted: seq<Entry>, page: nat, size: nat)
    requires 1 <= page && 1 <= size <= PAGE_SIZE_MAX && |sorted| < 0x8000_0000_0000_0000
    ensures var offset := WrappedOffset(page, size);
            offset >= 0 && ListPage(sorted, offset, page, size) == ListPage(sorted, (page - 1) * size, page, size)
            <==> (page - 1) * size < 0x8000_0000_0000_0000 || offset >= |sorted|
  {
    Times(0, page - 1, size);
    var product := (page - 1) * size;
    var offset := WrappedOffset(page, size);
    if product >= 0x8000_0000_0000_0000 && 0 <= offset < |sorted| {
      assert ListPage(sorted, product, page, size).files == [];
      assert |ListPage(sorted, offset, page, size).files| >= 1;
    }
  }

  /** Two pages past the range: one makes the program panic, the other shows the first page again. */
  lemma OverflowWitnesses()
    ensures WrappedOffset(0x4000_0000_0000_0001, 2) < 0
    ensures WrappedOffset(0x4000_0000_0000_0001, 4) == 0
  {
  }
}
