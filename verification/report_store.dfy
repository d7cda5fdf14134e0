/**
 * The report documents as the components read and write them, and the
 * behaviour the components rely on from the document store: which
 * documents a live query delivers, how a partial update lands on a
 * document, and how a new document and its image sub-collection are added.
 * The store itself is an external service; here it is a value.
 */
module ReportStore {
  import opened Wrappers

  /** An instant: a server timestamp, an ISO date string or `Date.now()`, all opaque. */
  type Time = nat

  const DRAFT := "Draft"
  const SUBMITTED := "Submitted"
  const IN_REVIEW := "In Review"
  const RESOLVED := "Resolved"
  const ARCHIVED := "Archived"

  /** A Leaflet / form location. */
  datatype LatLng = LatLng(lat: real, lng: real)

  /** The `coords` field of a stored report. */
  datatype Coords = Coords(latitude: real, longitude: real)

  /**
   * The storage path of an uploaded image, kept as its parts; it reads
   * `reports/{reportId}/images/{reportId}_{timestamp}_{index}.{extension}`.
   */
  datatype StoragePath = StoragePath(reportId: string, timestamp: Time, index: nat, extension: string)

  /** One entry of an image list: where the file is kept and how to fetch it. */
  datatype ImageRecord = ImageRecord(path: StoragePath, url: string, contentType: string, sizeBytes: nat)

  /**
   * A report document together with its id. `status`, `category` and
   * `severity` hold whatever the document holds: the components compare
   * them with `===` against fixed values. `severity == None` is `NaN`;
   * `reviewedAt == None` and `resolvedAt == None` mean the field is absent.
   */
  datatype Report = Report(
    id: string,
    userId: string,
    title: string,
    description: string,
    category: Option<string>,
    severity: Option<int>,
    coords: Option<Coords>,
    status: string,
    createdAt: Time,
    updatedAt: Time,
    submittedAt: Time,
    reviewedAt: Option<Time>,
    resolvedAt: Option<Time>,
    images: seq<ImageRecord>)

  /** A document of the `images` sub-collection of report `reportId`. */
  datatype ImageDoc = ImageDoc(reportId: string, images: seq<ImageRecord>)

  /**
   * The document store: the `reports` collection keyed by id, the image
   * sub-collection documents in the order they were added, and the paths
   * of the objects uploaded to file storage.
   */
  datatype Store = Store(reports: map<string, Report>, imageDocs: seq<ImageDoc>, objects: seq<StoragePath>)

  /** Every document is filed under its own id. */
  ghost predicate WellFormed(store: Store)
  {
    forall id :: id in store.reports ==> store.reports[id].id == id
  }

  // ---------------------------------------------------------------- queries

  /**
   * A query on the `reports` collection: an optional `where('userId', '==', …)`,
   * an optional `where('status', 'in', …)` and an optional
   * `orderBy('createdAt', 'desc')`.
   */
  datatype Query = Query(ownerIs: Option<string>, statusIn: Option<seq<string>>, newestFirst: bool)

  predicate Admits(q: Query, r: Report)
  {
    && (q.ownerIs.Some? ==> r.userId == q.ownerIs.value)
    && (q.statusIn.Some? ==> r.status in q.statusIn.value)
  }

  /**
   * `snap` is a snapshot of `q` over `store`: every matching document exactly
   * once, nothing else, newest first when the query orders by `createdAt`.
   */
  ghost predicate IsSnapshot(q: Query, store: Store, snap: seq<Report>)
  {
    && (forall i :: 0 <= i < |snap| ==>
          snap[i].id in store.reports && store.reports[snap[i].id] == snap[i] && Admits(q, snap[i]))
    && (forall id :: id in store.reports && Admits(q, store.reports[id]) ==> store.reports[id] in snap)
    && (forall i, j :: 0 <= i < j < |snap| ==> snap[i].id != snap[j].id)
    && (q.newestFirst ==> forall i, j :: 0 <= i < j < |snap| ==> snap[i].createdAt >= snap[j].createdAt)
  }

  /** What a snapshot delivers is what the query asks for. */
  lemma SnapshotAdmitted(q: Query, store: Store, snap: seq<Report>, r: Report)
    requires IsSnapshot(q, store, snap) && r in snap
    ensures Admits(q, r) && r.id in store.reports && store.reports[r.id] == r
  {
    var i :| 0 <= i < |snap| && snap[i] == r;
  }

  // ------------------------------------------------------------ projections

  /** `reports.filter(r => r.status === status)`. */
  function WithStatus(reports: seq<Report>, status: string): (r: seq<Report>)
    ensures |r| <= |reports|
    ensures forall x :: x in r ==> x in reports && x.status == status
    ensures (forall x :: x in reports ==> x.status == status) ==> r == reports
  {
    if reports == [] then []
    else (if reports[0].status == status then [reports[0]] else []) + WithStatus(reports[1..], status)
  }

  /**
   * The filter keeps every report with the status as many times as the list
   * holds it, and no report with another status.
   */
  lemma {:induction false} WithStatusCounts(reports: seq<Report>, status: string)
    ensures forall x: Report :: x.status == status ==> multiset(WithStatus(reports, status))[x] == multiset(reports)[x]
    ensures forall x: Report :: x.status != status ==> multiset(WithStatus(reports, status))[x] == 0
  {
    if reports != [] {
      WithStatusCounts(reports[1..], status);
      assert reports == [reports[0]] + reports[1..];
    }
  }

  /** `a` is `b` with some elements left out, the rest in their order. */
  ghost predicate SubsequenceOf<T>(a: seq<T>, b: seq<T>)
    decreases |b|
  {
    a == [] || (b != [] && ((a[0] == b[0] && SubsequenceOf(a[1..], b[1..])) || SubsequenceOf(a, b[1..])))
  }

  lemma {:induction false} WithStatusKeepsOrder(reports: seq<Report>, status: string)
    ensures SubsequenceOf(WithStatus(reports, status), reports)
  {
    if reports != [] {
      var rest := WithStatus(reports[1..], status);
      WithStatusKeepsOrder(reports[1..], status);
      if reports[0].status == status {
        assert WithStatus(reports, status) == [reports[0]] + rest;
        assert ([reports[0]] + rest)[1..] == rest;
      } else {
        assert WithStatus(reports, status) == rest;
      }
    }
  }

  lemma {:induction false} WithStatusAppend(a: seq<Report>, b: seq<Report>, status: string)
    ensures WithStatus(a + b, status) == WithStatus(a, status) + WithStatus(b, status)
  {
    if a == [] {
      assert a + b == b;
    } else {
      assert (a + b)[1..] == a[1..] + b;
      WithStatusAppend(a[1..], b, status);
    }
  }

  // --------------------------------------------------------------- updates

  /**
   * The object passed to `updateDoc`. `None` in `reviewedAt` or
   * `resolvedAt` is a field written as `undefined`.
   */
  datatype StatusPatch = StatusPatch(status: string, updatedAt: Time, reviewedAt: Option<Time>, resolvedAt: Option<Time>)

  /**
   * A patch landing on a document whose client ignores `undefined`
   * properties: fields given a value are overwritten, fields written as
   * `undefined` are left as they were, nothing else changes.
   */
  function ApplyPatch(r: Report, p: StatusPatch): (r': Report)
    ensures r'.status == p.status && r'.updatedAt == p.updatedAt
    ensures p.reviewedAt.Some? ==> r'.reviewedAt == p.reviewedAt
    ensures p.reviewedAt.None? ==> r'.reviewedAt == r.reviewedAt
    ensures p.resolvedAt.Some? ==> r'.resolvedAt == p.resolvedAt
    ensures p.resolvedAt.None? ==> r'.resolvedAt == r.resolvedAt
    ensures r'.(status := r.status, updatedAt := r.updatedAt, reviewedAt := r.reviewedAt, resolvedAt := r.resolvedAt) == r
  {
    r.(status := p.status,
       updatedAt := p.updatedAt,
       reviewedAt := if p.reviewedAt.Some? then p.reviewedAt else r.reviewedAt,
       resolvedAt := if p.resolvedAt.Some? then p.resolvedAt else r.resolvedAt)
  }

  datatype UpdateError = NotFound | Rejected

  /**
   * `updateDoc(doc(db, 'reports', id), p)`: fails when no document has that
   * id, or when the client refuses the patch (`accepted == false`: a network
   * failure, a security rule, or a client that throws on `undefined`).
   */
  function Update(store: Store, id: string, p: StatusPatch, accepted: bool): (r: Result)
    ensures r.Done? <==> id in store.reports && accepted
    ensures r.Done? ==> r.store.reports.Keys == store.reports.Keys
    ensures r.Done? ==> forall k :: k in store.reports && k != id ==> r.store.reports[k] == store.reports[k]
    ensures r.Done? ==> r.store.imageDocs == store.imageDocs && r.store.objects == store.objects
  {
    if id !in store.reports then Failed(NotFound)
    else if !accepted then Failed(Rejected)
    else Done(store.(reports := store.reports[id := ApplyPatch(store.reports[id], p)]))
  }

  datatype Result = Done(store: Store) | Failed(error: UpdateError)

  /** Updating a document keeps every document filed under its own id. */
  lemma UpdateKeepsWellFormed(store: Store, id: string, p: StatusPatch, accepted: bool)
    requires WellFormed(store)
    ensures Update(store, id, p, accepted).Done? ==> WellFormed(Update(store, id, p, accepted).store)
  {
  }

  /**
   * Two successive patches that write the same status: the document ends as
   * if only the second had been written (last write wins).
   */
  lemma {:induction false} SamePatchTwiceLastWins(r: Report, first: StatusPatch, second: StatusPatch)
    requires first.status == second.status
    requires first.reviewedAt.Some? == second.reviewedAt.Some?
    requires first.resolvedAt.Some? == second.resolvedAt.Some?
    ensures ApplyPatch(ApplyPatch(r, first), second) == ApplyPatch(r, second)
  {
  }
}
