/**
 * The citizen's report form: the draft fields, the bounded image list,
 * the location gate, the document written on submit, the image upload
 * loop and the reset to defaults.
 */
module ReportForm {
  import opened Wrappers
  import opened Text
  import opened ReportStore

  const MAX_IMAGES := 5
  const DEFAULT_CATEGORY := "waste_dumping"
  /** The severity `<select>` value; the initial number 2 reads the same under `parseInt`. */
  const DEFAULT_SEVERITY := "2"

  const TOO_MANY_IMAGES := "Maximum 5 images allowed"
  const NO_LOCATION := "Please select a location for your report"
  const SUBMIT_FAILED := "Failed to submit report. Please try again."
  const LOCATION_DENIED := "Unable to get your location. Please enable location services."
  const NO_GEOLOCATION := "Geolocation is not supported by your browser."

  /** The category options: stored value and shown title. */
  const CATEGORIES: seq<(string, string)> := [
    ("waste_dumping", "Waste Dumping"),
    ("air_pollution", "Air Pollution"),
    ("water_pollution", "Water Pollution"),
    ("vehicle_emissions", "Vehicle Emissions"),
    ("industrial_emissions", "Industrial Emissions"),
    ("other", "Other")]

  /** A file chosen in the file picker. */
  datatype ImageFile = ImageFile(name: string, contentType: string, size: nat)

  /** The fields a citizen edits. */
  datatype Draft = Draft(
    title: string,
    description: string,
    category: string,
    severity: string,
    location: Option<LatLng>,
    images: seq<ImageFile>)

  const DEFAULT_DRAFT := Draft("", "", DEFAULT_CATEGORY, DEFAULT_SEVERITY, None, [])

  // ------------------------------------------------------------ image list

  /** `s.filter((_, i) => i !== index)` over the positions `from`, `from + 1`, … */
  function DropIndexFrom<T>(s: seq<T>, index: int, from: int): seq<T>
  {
    if s == [] then []
    else (if from != index then [s[0]] else []) + DropIndexFrom(s[1..], index, from + 1)
  }

  /**
   * `removeImage(index)`'s filter over the image list: it drops exactly the
   * element at `index` and keeps the others in order; a position outside the
   * list changes nothing.
   */
  function RemoveAt<T>(s: seq<T>, index: int): (r: seq<T>)
    ensures 0 <= index < |s| ==> r == s[..index] + s[index + 1..]
    ensures !(0 <= index < |s|) ==> r == s
    ensures |r| <= |s|
  {
    DropIndexFromSpec(s, index, 0);
    DropIndexFrom(s, index, 0)
  }

  lemma {:induction false} DropIndexFromSpec<T>(s: seq<T>, index: int, from: int)
    ensures from <= index < from + |s| ==>
              DropIndexFrom(s, index, from) == s[..index - from] + s[index - from + 1..]
    ensures !(from <= index < from + |s|) ==> DropIndexFrom(s, index, from) == s
  {
    if s != [] {
      DropIndexFromSpec(s[1..], index, from + 1);
      if from == index {
        assert DropIndexFrom(s[1..], index, from + 1) == s[1..];
      } else if from < index < from + |s| {
        assert s[..index - from] == [s[0]] + s[1..][..index - from - 1];
        assert s[index - from + 1..] == s[1..][index - from..];
      } else {
        assert s == [s[0]] + s[1..];
      }
    }
  }

  // -------------------------------------------------------- storage naming

  /**
   * `name.split('.').pop()`: the text after the last `.`, or the whole name
   * when it has no `.` (see `ExtensionSpec`).
   */
  function Extension(name: string): string
  {
    if name == [] || name[|name| - 1] == '.' then []
    else Extension(name[..|name| - 1]) + [name[|name| - 1]]
  }

  /**
   * The extension is the dot-free tail of the name that is either the whole
   * name or preceded by a `.`; these three facts determine it.
   */
  lemma {:induction false} ExtensionSpec(name: string)
    ensures '.' !in Extension(name)
    ensures |Extension(name)| <= |name| && Extension(name) == name[|name| - |Extension(name)|..]
    ensures Extension(name) == name || name[|name| - |Extension(name)| - 1] == '.'
  {
    if name != [] && name[|name| - 1] != '.' {
      var init := name[..|name| - 1];
      ExtensionSpec(init);
      var ext := Extension(init);
      assert init[|init| - |ext|..] + [name[|name| - 1]] == name[|name| - 1 - |ext|..];
    }
  }

  /** Where image `i` of report `reportId`, picked as file `name`, is stored. */
  function ImagePath(reportId: string, timestamp: Time, i: nat, name: string): StoragePath
  {
    StoragePath(reportId, timestamp, i, Extension(name))
  }

  /** `reports/${reportId}/images/${reportId}_`: the part fixed by the report. */
  function PathPrefix(reportId: string): string
  {
    "reports/" + reportId + "/images/" + reportId + "_"
  }

  /** `${timestamp}_${i}.${ext}`: the part that varies from image to image. */
  function PathSuffix(p: StoragePath): string
  {
    Decimal(p.timestamp) + ("_" + (Decimal(p.index) + ("." + p.extension)))
  }

  /** `reports/${reportId}/images/${reportId}_${timestamp}_${i}.${ext}` */
  function PathText(p: StoragePath): (text: string)
    ensures PathPrefix(p.reportId) <= text && |text| > |PathPrefix(p.reportId)|
  {
    PathPrefix(p.reportId) + PathSuffix(p)
  }

  lemma SameIndex(a: string, x: string, b: string, y: string, c: char)
    requires a + ([c] + x) == b + ([c] + y) && |a| < |b|
    ensures b[|a|] == c
  {
    assert (a + ([c] + x))[|a|] == c;
    assert (b + ([c] + y))[|a|] == b[|a|];
  }

  /** Two digit strings each followed by the same non-digit split a string at the same place. */
  lemma SplitAtNonDigit(a: string, x: string, b: string, y: string, c: char)
    requires AllDigits(a) && AllDigits(b) && !IsDigit(c)
    requires a + ([c] + x) == b + ([c] + y)
    ensures a == b && x == y
  {
    if |a| < |b| {
      SameIndex(a, x, b, y, c);
      assert false;
    } else if |b| < |a| {
      SameIndex(b, y, a, x, c);
      assert false;
    } else {
      var s := a + ([c] + x);
      assert a == s[..|a|] == b;
      assert x == s[|a| + 1..] == y;
    }
  }

  lemma StripPrefix(pre: string, x: string, y: string)
    requires pre + x == pre + y
    ensures x == y
  {
    assert x == (pre + x)[|pre|..];
    assert y == (pre + y)[|pre|..];
  }

  /**
   * Within one report's folder the path text determines the clock reading,
   * the position and the extension; in particular images at different
   * positions of one upload never share a path, even when the clock reads
   * the same for both.
   */
  lemma PathTextDetermines(p: StoragePath, q: StoragePath)
    requires p.reportId == q.reportId
    requires PathText(p) == PathText(q)
    ensures p == q
  {
    StripPrefix(PathPrefix(p.reportId), PathSuffix(p), PathSuffix(q));
    SplitAtNonDigit(Decimal(p.timestamp), Decimal(p.index) + ("." + p.extension),
                    Decimal(q.timestamp), Decimal(q.index) + ("." + q.extension), '_');
    SplitAtNonDigit(Decimal(p.index), p.extension, Decimal(q.index), q.extension, '.');
    DecimalInjective(p.timestamp, q.timestamp);
    DecimalInjective(p.index, q.index);
  }

  /** Images at different positions of one upload get different path texts. */
  lemma ImagePathsDistinct(reportId: string, t1: Time, i: nat, n1: string, t2: Time, j: nat, n2: string)
    requires i != j
    ensures PathText(ImagePath(reportId, t1, i, n1)) != PathText(ImagePath(reportId, t2, j, n2))
  {
    if PathText(ImagePath(reportId, t1, i, n1)) == PathText(ImagePath(reportId, t2, j, n2)) {
      PathTextDetermines(ImagePath(reportId, t1, i, n1), ImagePath(reportId, t2, j, n2));
    }
  }

  // --------------------------------------------------------------- uploads

  /** The result of uploading one file and asking for its download URL. */
  datatype UploadOutcome = UploadRejected | UrlUnavailable | Uploaded(url: string)

  /** The position of the first upload that does not complete, or the count when all do. */
  function FirstFailure(outcomes: seq<UploadOutcome>): (n: nat)
    ensures n <= |outcomes|
    ensures forall k :: 0 <= k < n ==> outcomes[k].Uploaded?
    ensures n < |outcomes| ==> !outcomes[n].Uploaded?
  {
    if outcomes == [] || !outcomes[0].Uploaded? then 0 else 1 + FirstFailure(outcomes[1..])
  }

  /** The entry pushed for image `i`. */
  function ImageEntry(reportId: string, image: ImageFile, timestamp: Time, i: nat, url: string): ImageRecord
  {
    ImageRecord(ImagePath(reportId, timestamp, i, image.name), url, image.contentType, image.size)
  }

  /** The paths of the first `count` images. */
  function PathsUpTo(reportId: string, images: seq<ImageFile>, times: seq<Time>, count: nat): (paths: seq<StoragePath>)
    requires count <= |images| && count <= |times|
    ensures |paths| == count
    ensures forall k :: 0 <= k < count ==> paths[k] == ImagePath(reportId, times[k], k, images[k].name)
  {
    seq(count, k requires 0 <= k < count => ImagePath(reportId, times[k], k, images[k].name))
  }

  /** The objects left in storage by an upload run: every file whose upload completed. */
  function StoredObjects(reportId: string, images: seq<ImageFile>, times: seq<Time>, outcomes: seq<UploadOutcome>)
    : seq<StoragePath>
    requires |times| == |images| && |outcomes| == |images|
  {
    var n := FirstFailure(outcomes);
    PathsUpTo(reportId, images, times, if n < |images| && outcomes[n].UrlUnavailable? then n + 1 else n)
  }

  /** The entries an upload run hands back: one per image when all uploads complete, none otherwise. */
  function UploadEntries(reportId: string, images: seq<ImageFile>, times: seq<Time>, outcomes: seq<UploadOutcome>)
    : Option<seq<ImageRecord>>
    requires |times| == |images| && |outcomes| == |images|
  {
    if FirstFailure(outcomes) < |images| then None
    else Some(seq(|images|, k requires 0 <= k < |images| => ImageEntry(reportId, images[k], times[k], k, outcomes[k].url)))
  }

  /**
   * The files left in storage: every image before the first failure, plus
   * the failing one when it was stored but its URL could not be fetched;
   * each under its own path.
   */
  lemma StoredObjectsSpec(reportId: string, images: seq<ImageFile>, times: seq<Time>, outcomes: seq<UploadOutcome>)
    requires |times| == |images| && |outcomes| == |images|
    ensures var paths := StoredObjects(reportId, images, times, outcomes);
            && FirstFailure(outcomes) <= |paths| <= |images|
            && (|paths| > FirstFailure(outcomes) <==> |paths| > 0 && outcomes[|paths| - 1].UrlUnavailable?)
            && forall k :: 0 <= k < |paths| ==> paths[k] == ImagePath(reportId, times[k], k, images[k].name)
  {
  }

  /**
   * The entries come back exactly when every upload completed: one per
   * image, in order, with its path, URL, content type and size.
   */
  lemma UploadEntriesSpec(reportId: string, images: seq<ImageFile>, times: seq<Time>, outcomes: seq<UploadOutcome>)
    requires |times| == |images| && |outcomes| == |images|
    ensures var entries := UploadEntries(reportId, images, times, outcomes);
            && (entries.Some? <==> forall k :: 0 <= k < |outcomes| ==> outcomes[k].Uploaded?)
            && (entries.Some? ==> |entries.value| == |images|)
            && (entries.Some? ==> forall k :: 0 <= k < |images| ==>
                  && entries.value[k].path == ImagePath(reportId, times[k], k, images[k].name)
                  && entries.value[k].url == outcomes[k].url
                  && entries.value[k].contentType == images[k].contentType
                  && entries.value[k].sizeBytes == images[k].size)
  {
    if UploadEntries(reportId, images, times, outcomes).None? {
      var n := FirstFailure(outcomes);
      assert !outcomes[n].Uploaded?;
    }
  }

  /**
   * `uploadImages(reportId)`: uploads the images one by one, in list order,
   * with `times[i]` the clock reading for image `i` and `outcomes[i]` what
   * storage answered. The first failure abandons the run (the entries are
   * lost, the files already stored stay stored); otherwise there is one
   * entry per image, in order, carrying its path, URL, type and size.
   */
  method UploadImages(reportId: string, images: seq<ImageFile>, times: seq<Time>, outcomes: seq<UploadOutcome>)
    returns (entries: Option<seq<ImageRecord>>, stored: seq<StoragePath>)
    requires |times| == |images| && |outcomes| == |images|
    ensures entries == UploadEntries(reportId, images, times, outcomes)
    ensures stored == StoredObjects(reportId, images, times, outcomes)
  {
    var acc: seq<ImageRecord> := [];
    stored := [];
    var i := 0;
    while i < |images|
      invariant 0 <= i <= |images| && i <= FirstFailure(outcomes)
      invariant |acc| == i
      invariant forall k :: 0 <= k < i ==> acc[k] == ImageEntry(reportId, images[k], times[k], k, outcomes[k].url)
      invariant |stored| == i
      invariant forall k :: 0 <= k < i ==> stored[k] == ImagePath(reportId, times[k], k, images[k].name)
    {
      var path := ImagePath(reportId, times[i], i, images[i].name);
      match outcomes[i]
      case UploadRejected =>
        assert FirstFailure(outcomes) == i;
        assert stored == StoredObjects(reportId, images, times, outcomes);
        return None, stored;
      case UrlUnavailable =>
        assert FirstFailure(outcomes) == i;
        stored := stored + [path];
        assert stored == StoredObjects(reportId, images, times, outcomes);
        return None, stored;
      case Uploaded(url) =>
        stored := stored + [path];
        var entry := ImageRecord(path, url, images[i].contentType, images[i].size);
        assert entry == ImageEntry(reportId, images[i], times[i], i, outcomes[i].url);
        acc := acc + [entry];
      i := i + 1;
    }
    entries := Some(acc);
    assert acc == UploadEntries(reportId, images, times, outcomes).value;
    assert stored == StoredObjects(reportId, images, times, outcomes);
  }

  // ---------------------------------------------------------------- submit

  /**
   * The document `handleSubmit` adds, as the store holds it with id `id`:
   * the server stamps `now` into all three timestamps.
   */
  function NewReport(id: string, uid: string, draft: Draft, now: Time): (r: Report)
    requires draft.location.Some?
    ensures r.id == id && r.userId == uid && r.status == SUBMITTED
    ensures r.title == draft.title && r.description == draft.description && r.category == Some(draft.category)
    ensures r.coords == Some(Coords(draft.location.value.lat, draft.location.value.lng))
    ensures r.severity == ParseInt(draft.severity)
    ensures r.images == [] && r.reviewedAt.None? && r.resolvedAt.None?
    ensures r.createdAt == r.updatedAt == r.submittedAt
  {
    Report(id, uid, draft.title, draft.description, Some(draft.category), ParseInt(draft.severity),
           Some(Coords(draft.location.value.lat, draft.location.value.lng)),
           SUBMITTED, now, now, now, None, None, [])
  }

  /** Each severity the form offers is stored as that number. */
  lemma SeverityOptionsStoreTheirLevel(level: nat)
    requires 1 <= level <= 4
    ensures ParseInt(Decimal(level)) == Some(level)
  {
    DecimalRoundTrip(level);
  }

  /** How a submission ended. */
  datatype SubmitResult = MissingLocation | CreateFailed | UploadFailed(reportId: string)
                        | ImageDocFailed(reportId: string) | Submitted(reportId: string)

  /** The message the form shows after a submission. */
  function ErrorAfter(result: SubmitResult): (message: string)
    ensures message == "" <==> result.Submitted?
    ensures message == NO_LOCATION <==> result.MissingLocation?
    ensures !result.Submitted? && !result.MissingLocation? ==> message == SUBMIT_FAILED
  {
    match result
    case MissingLocation => NO_LOCATION
    case Submitted(_) => ""
    case _ => SUBMIT_FAILED
  }

  /**
   * What `handleSubmit` does to the store for `draft`, and how it ends.
   * `created` is whether adding the report document succeeds (its id is
   * `newId`), `times` and `outcomes` are the clock readings and storage
   * answers of the upload run, and `imageDocWritten` is whether adding the
   * image sub-collection document succeeds.
   */
  function Submit(store: Store, uid: string, newId: string, draft: Draft, now: Time, created: bool,
                  times: seq<Time>, outcomes: seq<UploadOutcome>, imageDocWritten: bool): (Store, SubmitResult)
    requires |times| == |draft.images| && |outcomes| == |draft.images|
  {
    if draft.location.None? then (store, MissingLocation)
    else if !created then (store, CreateFailed)
    else
      var withReport := store.(reports := store.reports[newId := NewReport(newId, uid, draft, now)]);
      if draft.images == [] then (withReport, Submitted(newId))
      else
        var withFiles := withReport.(objects := withReport.objects + StoredObjects(newId, draft.images, times, outcomes));
        match UploadEntries(newId, draft.images, times, outcomes)
        case None => (withFiles, UploadFailed(newId))
        case Some(entries) =>
          if !imageDocWritten then (withFiles, ImageDocFailed(newId))
          else (withFiles.(imageDocs := withFiles.imageDocs + [ImageDoc(newId, entries)]), Submitted(newId))
  }
  /**
   * How a submission ends: a missing location or a failed document write
   * leaves the store as it was; every later outcome names the new report;
   * it succeeds exactly when the document is added and, if there are
   * images, every upload and the image document write succeed.
   */
  lemma SubmitOutcome(store: Store, uid: string, newId: string, draft: Draft, now: Time, created: bool,
                      times: seq<Time>, outcomes: seq<UploadOutcome>, imageDocWritten: bool)
    requires |times| == |draft.images| && |outcomes| == |draft.images|
    ensures var (after, result) := Submit(store, uid, newId, draft, now, created, times, outcomes, imageDocWritten);
            && (result.MissingLocation? <==> draft.location.None?)
            && (result.CreateFailed? <==> draft.location.Some? && !created)
            && (result.MissingLocation? || result.CreateFailed? ==> after == store)
            && (!(result.MissingLocation? || result.CreateFailed?) ==> result.reportId == newId)
            && (result.Submitted? <==>
                  && draft.location.Some? && created
                  && (draft.images == [] || (UploadEntries(newId, draft.images, times, outcomes).Some? && imageDocWritten)))
  {
  }


  /** Without a location nothing is written. */
  lemma SubmitWithoutLocationWritesNothing(store: Store, uid: string, newId: string, draft: Draft, now: Time, created: bool,
                                           times: seq<Time>, outcomes: seq<UploadOutcome>, imageDocWritten: bool)
    requires |times| == |draft.images| && |outcomes| == |draft.images|
    requires draft.location.None?
    ensures Submit(store, uid, newId, draft, now, created, times, outcomes, imageDocWritten) == (store, MissingLocation)
  {
  }

  /**
   * With a location and a successful write, exactly one document is added,
   * under the new id, with the shape `NewReport` gives; the documents
   * already there are untouched, and the store stays well formed.
   */
  lemma SubmitAddsOneReport(store: Store, uid: string, newId: string, draft: Draft, now: Time,
                            times: seq<Time>, outcomes: seq<UploadOutcome>, imageDocWritten: bool)
    requires |times| == |draft.images| && |outcomes| == |draft.images|
    requires draft.location.Some? && WellFormed(store) && newId !in store.reports
    ensures var (after, _) := Submit(store, uid, newId, draft, now, true, times, outcomes, imageDocWritten);
            && after.reports.Keys == store.reports.Keys + {newId}
            && after.reports[newId] == NewReport(newId, uid, draft, now)
            && (forall id :: id in store.reports ==> after.reports[id] == store.reports[id])
            && WellFormed(after)
  {
    SubmitWritesReport(store, uid, newId, draft, now, times, outcomes, imageDocWritten);
    assert NewReport(newId, uid, draft, now).id == newId;
  }

  /** Once the document is added, every later step leaves the reports alone. */
  lemma SubmitWritesReport(store: Store, uid: string, newId: string, draft: Draft, now: Time,
                           times: seq<Time>, outcomes: seq<UploadOutcome>, imageDocWritten: bool)
    requires |times| == |draft.images| && |outcomes| == |draft.images|
    requires draft.location.Some?
    ensures Submit(store, uid, newId, draft, now, true, times, outcomes, imageDocWritten).0.reports
            == store.reports[newId := NewReport(newId, uid, draft, now)]
  {
    if draft.images != [] {
      match UploadEntries(newId, draft.images, times, outcomes)
      case None =>
      case Some(entries) =>
    }
  }

  /** Nothing is uploaded and no image document is added when no image was picked. */
  lemma NoImagesNoUploads(store: Store, uid: string, newId: string, draft: Draft, now: Time, created: bool,
                          imageDocWritten: bool)
    requires draft.images == []
    ensures var (after, _) := Submit(store, uid, newId, draft, now, created, [], [], imageDocWritten);
            after.objects == store.objects && after.imageDocs == store.imageDocs
  {
  }

  /**
   * A submission with images that ends well has added one image document
   * for the new report, holding one entry per picked image, in the order
   * picked, each stored under its own path.
   */
  lemma SubmittedImagesRecorded(store: Store, uid: string, newId: string, draft: Draft, now: Time, created: bool,
                                times: seq<Time>, outcomes: seq<UploadOutcome>, imageDocWritten: bool)
    requires |times| == |draft.images| && |outcomes| == |draft.images|
    requires draft.images != []
    requires Submit(store, uid, newId, draft, now, created, times, outcomes, imageDocWritten).1.Submitted?
    ensures var (after, _) := Submit(store, uid, newId, draft, now, created, times, outcomes, imageDocWritten);
            && |after.imageDocs| == |store.imageDocs| + 1
            && after.imageDocs[..|store.imageDocs|] == store.imageDocs
            && var doc := after.imageDocs[|store.imageDocs|];
               && doc.reportId == newId
               && |doc.images| == |draft.images|
               && (forall k :: 0 <= k < |draft.images| ==>
                     doc.images[k].path == ImagePath(newId, times[k], k, draft.images[k].name)
                     && doc.images[k].contentType == draft.images[k].contentType
                     && doc.images[k].sizeBytes == draft.images[k].size)
               && (forall k, m :: 0 <= k < m < |draft.images| ==>
                     PathText(doc.images[k].path) != PathText(doc.images[m].path))
  {
    SubmitWritesImageDoc(store, uid, newId, draft, now, created, times, outcomes, imageDocWritten);
    UploadEntriesSpec(newId, draft.images, times, outcomes);
    forall k, m | 0 <= k < m < |draft.images|
      ensures PathText(ImagePath(newId, times[k], k, draft.images[k].name))
              != PathText(ImagePath(newId, times[m], m, draft.images[m].name))
    {
      ImagePathsDistinct(newId, times[k], k, draft.images[k].name, times[m], m, draft.images[m].name);
    }
  }
  /** A successful submission with images appends one image document holding the upload entries. */
  lemma SubmitWritesImageDoc(store: Store, uid: string, newId: string, draft: Draft, now: Time, created: bool,
                             times: seq<Time>, outcomes: seq<UploadOutcome>, imageDocWritten: bool)
    requires |times| == |draft.images| && |outcomes| == |draft.images|
    requires draft.images != []
    requires Submit(store, uid, newId, draft, now, created, times, outcomes, imageDocWritten).1.Submitted?
    ensures UploadEntries(newId, draft.images, times, outcomes).Some?
    ensures Submit(store, uid, newId, draft, now, created, times, outcomes, imageDocWritten).0.imageDocs
            == store.imageDocs + [ImageDoc(newId, UploadEntries(newId, draft.images, times, outcomes).value)]
  {
  }


  /**
   * A failure after the report document was written leaves the document in
   * place: the report exists with no image entries.
   */
  lemma FailedUploadKeepsReport(store: Store, uid: string, newId: string, draft: Draft, now: Time,
                                times: seq<Time>, outcomes: seq<UploadOutcome>, imageDocWritten: bool)
    requires |times| == |draft.images| && |outcomes| == |draft.images|
    requires draft.location.Some?
    requires var r := Submit(store, uid, newId, draft, now, true, times, outcomes, imageDocWritten).1;
             r.UploadFailed? || r.ImageDocFailed?
    ensures var (after, _) := Submit(store, uid, newId, draft, now, true, times, outcomes, imageDocWritten);
            && newId in after.reports && after.reports[newId].images == []
            && after.imageDocs == store.imageDocs
  {
  }

  /**
   * The writes of `handleSubmit`, step by step: the location gate, the
   * report document, the uploads, then the image document; each failure
   * stops the run where it happens.
   */
  method SubmitDraft(store: Store, uid: string, newId: string, draft: Draft, created: bool, now: Time,
                     times: seq<Time>, outcomes: seq<UploadOutcome>, imageDocWritten: bool)
    returns (store': Store, result: SubmitResult)
    requires |times| == |draft.images| && |outcomes| == |draft.images|
    ensures (store', result) == Submit(store, uid, newId, draft, now, created, times, outcomes, imageDocWritten)
  {
    if draft.location.None? {
      return store, MissingLocation;
    }
    if !created {
      return store, CreateFailed;
    }
    store' := store.(reports := store.reports[newId := NewReport(newId, uid, draft, now)]);
    if |draft.images| > 0 {
      var entries, stored := UploadImages(newId, draft.images, times, outcomes);
      store' := store'.(objects := store'.objects + stored);
      if entries.None? {
        return store', UploadFailed(newId);
      }
      if !imageDocWritten {
        return store', ImageDocFailed(newId);
      }
      store' := store'.(imageDocs := store'.imageDocs + [ImageDoc(newId, entries.value)]);
    }
    result := Submitted(newId);
  }

  /** The form component's state. */
  class Form {
    var title: string
    var description: string
    var category: string
    var severity: string
    var location: Option<LatLng>
    var images: seq<ImageFile>
    var loading: bool
    var error: string
    var showMap: bool

    /** The picker never holds more than five images. */
    ghost predicate Valid()
      reads this
    {
      |images| <= MAX_IMAGES
    }

    /** The draft as it stands. */
    function Fields(): Draft
      reads this
    {
      Draft(title, description, category, severity, location, images)
    }

    constructor ()
      ensures Valid() && Fields() == DEFAULT_DRAFT
      ensures !loading && error == "" && !showMap
    {
      title, description := "", "";
      category, severity := DEFAULT_CATEGORY, DEFAULT_SEVERITY;
      location := None;
      images := [];
      loading := false;
      error := "";
      showMap := false;
    }

    /**
     * `handleImageChange`: newly picked files are appended after the existing
     * ones, in order, unless that would make more than five, in which case
     * an error is shown and the list is left alone.
     */
    method HandleImageChange(files: seq<ImageFile>)
      requires Valid()
      modifies this`images, this`error
      ensures Valid()
      ensures |old(images)| + |files| > MAX_IMAGES ==> images == old(images) && error == TOO_MANY_IMAGES
      ensures |old(images)| + |files| <= MAX_IMAGES ==> images == old(images) + files && error == old(error)
    {
      if |files| + |images| > MAX_IMAGES {
        error := TOO_MANY_IMAGES;
        return;
      }
      images := images + files;
    }

    /** `removeImage(index)`. */
    method RemoveImage(index: int)
      requires Valid()
      modifies this`images
      ensures Valid()
      ensures images == RemoveAt(old(images), index)
    {
      images := RemoveAt(images, index);
    }

    /** `handleLocationSelect`: a point picked on the map becomes the location. */
    method HandleLocationSelect(loc: LatLng)
      modifies this`location, this`showMap
      ensures location == Some(loc) && !showMap
    {
      location := Some(loc);
      showMap := false;
    }

    /**
     * `getCurrentLocation`: a position from the browser becomes the location;
     * a refusal or a browser without geolocation shows an error and keeps
     * the location.
     */
    method GetCurrentLocation(supported: bool, position: Option<LatLng>)
      modifies this`location, this`error
      ensures supported && position.Some? ==> location == position && error == old(error)
      ensures supported && position.None? ==> location == old(location) && error == LOCATION_DENIED
      ensures !supported ==> location == old(location) && error == NO_GEOLOCATION
    {
      if !supported {
        error := NO_GEOLOCATION;
      } else if position.None? {
        error := LOCATION_DENIED;
      } else {
        location := position;
      }
    }

    /** The clear button next to a chosen location. */
    method ClearLocation()
      modifies this`location
      ensures location == None
    {
      location := None;
    }

    /**
     * `handleSubmit` for the signed-in user `uid`: the store effect and the
     * outcome are those of `Submit` on the current draft. Only when every
     * step succeeds is the form reset to its defaults; otherwise the draft is
     * kept. The error shown matches the outcome and `loading` is false at
     * the end.
     */
    method HandleSubmit(store: Store, uid: string, newId: string, created: bool, now: Time,
                        times: seq<Time>, outcomes: seq<UploadOutcome>, imageDocWritten: bool)
      returns (store': Store, result: SubmitResult)
      requires Valid()
      requires |times| == |images| && |outcomes| == |images|
      modifies this`title, this`description, this`category, this`severity, this`location,
               this`images, this`loading, this`error
      ensures Valid() && !loading
      ensures (store', result) == Submit(store, uid, newId, old(Fields()), now, created, times, outcomes, imageDocWritten)
      ensures result.Submitted? ==> Fields() == DEFAULT_DRAFT
      ensures !result.Submitted? ==> Fields() == old(Fields())
      ensures error == ErrorAfter(result)
    {
      error, loading := "", true;
      var draft := Fields();
      store', result := SubmitDraft(store, uid, newId, draft, created, now, times, outcomes, imageDocWritten);
      if result.Submitted? {
        ResetDraft();
      }
      error, loading := ErrorAfter(result), false;
    }

    /** The reset after a successful submission: every field back to its default. */
    method ResetDraft()
      modifies this`title, this`description, this`category, this`severity, this`location, this`images
      ensures Valid() && Fields() == DEFAULT_DRAFT
    {
      title, description := "", "";
      category, severity := DEFAULT_CATEGORY, DEFAULT_SEVERITY;
      location := None;
      images := [];
    }
  }
}
