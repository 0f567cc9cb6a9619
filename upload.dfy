/** The upload route of src/app/api/uploadthing/core.ts: the `middleware` guard, the
    `processFile` loader dispatch, the page quota and the `onUploadComplete` state machine
    over the file table and the vector index. */
module UploadThing {
  import opened Wrappers
  import opened Session
  import StripePlans

  datatype UploadStatus = PENDING | PROCESSING | FAILED | SUCCESS

  /** What `getUserSubscriptionPlan` reports; the upload path reads only `isSubscribed`. */
  datatype SubscriptionPlan = SubscriptionPlan(isSubscribed: bool)

  /** What `middleware` hands to `onUploadComplete`. */
  datatype UploadMetadata = UploadMetadata(subscriptionPlan: SubscriptionPlan, userId: string)

  /** One page of a PDF or one row of a CSV, as a loader returns it. */
  datatype Document = Document(pageContent: string)

  /** What a loader does with the fetched blob: returns its documents, or throws. */
  datatype LoadOutcome = Loaded(docs: seq<Document>) | LoadFailed

  /** Whether embedding and the write to the vector index succeed or throw. */
  datatype IndexOutcome = Indexed | IndexFailed

  datatype IngestError = UnsupportedFileType | LoaderFailed

  /** A row of the file table. */
  datatype FileRecord = FileRecord(
    id: string, key: string, name: string, userId: string, url: string,
    uploadStatus: UploadStatus, fileType: string)

  // ---------------------------------------------------------------- middleware

  /** `middleware`: throws `Unauthorized` without a signed-in user with an id; otherwise
      passes on the user's id and subscription plan (the plan lookup is an input). */
  function Middleware(user: Option<KindeUser>, plan: SubscriptionPlan): (r: Result<UploadMetadata, string>)
    ensures r.Err? <==> Unauthenticated(user)
    ensures r.Err? ==> r.error == "Unauthorized"
    ensures r.Ok? ==> user.Some? && user.value.id == Some(r.value.userId) && r.value.userId != ""
    ensures r.Ok? ==> r.value.subscriptionPlan == plan
  {
    if Unauthenticated(user) then Err("Unauthorized")
    else Ok(UploadMetadata(plan, UserId(user)))
  }

  // ---------------------------------------------------------------- routes

  datatype FileKind = Text | Pdf
  datatype UploadRoute = FreePlanCsvLoader | FreePlanPdfLoader | ProPlanCsvLoader | ProPlanPdfLoader

  /** The file kind each route of `ourFileRouter` accepts. */
  function AcceptedKind(route: UploadRoute): FileKind {
    match route
    case FreePlanCsvLoader => Text
    case ProPlanCsvLoader => Text
    case FreePlanPdfLoader => Pdf
    case ProPlanPdfLoader => Pdf
  }

  /** The `maxFileSize` of each route, in megabytes. */
  function MaxFileSizeMB(route: UploadRoute): nat {
    match route
    case FreePlanCsvLoader => 4
    case FreePlanPdfLoader => 4
    case ProPlanCsvLoader => 16
    case ProPlanPdfLoader => 16
  }

  /** Free routes take files up to 4 MB, Pro routes up to 16 MB, for both kinds of file. */
  lemma RouteLimits()
    ensures AcceptedKind(FreePlanCsvLoader) == AcceptedKind(ProPlanCsvLoader) == Text
    ensures AcceptedKind(FreePlanPdfLoader) == AcceptedKind(ProPlanPdfLoader) == Pdf
    ensures MaxFileSizeMB(FreePlanCsvLoader) == MaxFileSizeMB(FreePlanPdfLoader) == 4
    ensures MaxFileSizeMB(ProPlanCsvLoader) == MaxFileSizeMB(ProPlanPdfLoader) == 16
  {
  }

  // ---------------------------------------------------------------- file type

  /** `name.split('.').pop()`: the text after the last `.`, or the whole name when it has
      none. The result is the longest suffix of `name` that holds no `.`. */
  function FileTypeOf(name: string): (r: string)
    ensures '.' !in r
    ensures |r| <= |name| && r == name[|name| - |r|..]
    ensures |r| < |name| ==> name[|name| - |r| - 1] == '.'
    decreases |name|
  {
    if |name| == 0 then ""
    else if name[|name| - 1] == '.' then ""
    else
      var prefix, last := name[..|name| - 1], name[|name| - 1];
      var rest := FileTypeOf(prefix);
      assert name == prefix + [last];
      assert name[|name| - |rest| - 1..] == prefix[|prefix| - |rest|..] + [last];
      rest + [last]
  }

  /** A name without a dot is its own type. */
  lemma FileTypeOfNoDot(name: string)
    requires '.' !in name
    ensures FileTypeOf(name) == name
  {
  }

  /** The type of `base.ext` is `ext` whenever `ext` holds no dot, whatever `base` holds. */
  lemma FileTypeOfExtension(base: string, ext: string)
    requires '.' !in ext
    ensures FileTypeOf(base + "." + ext) == ext
  {
    var name := base + "." + ext;
    var r := FileTypeOf(name);
    assert name[|base|] == '.';
    assert name[|base| + 1..] == ext;
  }

  // ---------------------------------------------------------------- processFile

  /** The loader `processFile` picks for a type: PDF and CSV only. */
  function Dispatch(fileType: string, pdfLoad: LoadOutcome, csvLoad: LoadOutcome): (r: Result<seq<Document>, IngestError>)
    ensures r.Ok? ==> fileType == "pdf" || fileType == "csv"
    ensures fileType == "pdf" ==> (r.Ok? <==> pdfLoad.Loaded?) && (r.Ok? ==> r.value == pdfLoad.docs)
    ensures fileType == "csv" ==> (r.Ok? <==> csvLoad.Loaded?) && (r.Ok? ==> r.value == csvLoad.docs)
    ensures fileType != "pdf" && fileType != "csv" ==> r == Err(UnsupportedFileType)
    ensures r.Err? && (fileType == "pdf" || fileType == "csv") ==> r.error == LoaderFailed
  {
    var chosen: Option<LoadOutcome> :=
      if fileType == "pdf" then Some(pdfLoad)
      else if fileType == "csv" then Some(csvLoad)
      else None;
    match chosen
    case None => Err(UnsupportedFileType)
    case Some(Loaded(docs)) => Ok(docs)
    case Some(LoadFailed) => Err(LoaderFailed)
  }

  /** `processFile`: fetch the uploaded file and run the loader for its type. Fetching and
      parsing are the two loader outcomes, one per loader the switch can pick. The switch
      is specified by `Dispatch`, whose contract states what each type gives. */
  method ProcessFile(fileType: string, pdfLoad: LoadOutcome, csvLoad: LoadOutcome)
    returns (pageLevelDocs: Result<seq<Document>, IngestError>)
    ensures pageLevelDocs == Dispatch(fileType, pdfLoad, csvLoad)
  {
    var load: LoadOutcome;
    if fileType == "pdf" {
      load := pdfLoad;
    } else if fileType == "csv" {
      load := csvLoad;
    } else {
      return Err(UnsupportedFileType);
    }
    match load
    case Loaded(docs) => pageLevelDocs := Ok(docs);
    case LoadFailed => pageLevelDocs := Err(LoaderFailed);
  }

  // ---------------------------------------------------------------- quota

  /** `PLANS.find((plan) => plan.name === planName)!.pagesPerPDF`. */
  function PagesPerPdf(planName: string): nat
    requires planName == "Free" || planName == "Pro"
  {
    StripePlans.PlanTable();
    StripePlans.FindPlan(StripePlans.PLANS, planName).value.pagesPerPDF
  }

  /** The limit that applies to the caller: Pro's when subscribed, Free's otherwise. */
  function PageLimit(isSubscribed: bool): nat {
    if isSubscribed then PagesPerPdf("Pro") else PagesPerPdf("Free")
  }

  /** The quota test of `onUploadComplete`, with its two `isXExceeded` flags. */
  predicate QuotaExceeded(fileType: string, pagesAmt: nat, isSubscribed: bool) {
    var isProExceeded := pagesAmt > PagesPerPdf("Pro");
    var isFreeExceeded := pagesAmt > PagesPerPdf("Free");
    fileType == "pdf" && ((isSubscribed && isProExceeded) || (!isSubscribed && isFreeExceeded))
  }

  /** The quota rejects exactly the PDFs with strictly more pages than the applicable
      limit (25 for Pro, 5 for Free); it never rejects any other type. */
  lemma QuotaRule(fileType: string, pagesAmt: nat, isSubscribed: bool)
    ensures PageLimit(isSubscribed) == if isSubscribed then 25 else 5
    ensures QuotaExceeded(fileType, pagesAmt, isSubscribed)
        <==> fileType == "pdf" && pagesAmt > PageLimit(isSubscribed)
  {
    StripePlans.PlanTable();
  }

  /** A PDF with exactly the limit passes; one page more is rejected, on both tiers. */
  lemma QuotaBoundary(isSubscribed: bool)
    ensures !QuotaExceeded("pdf", PageLimit(isSubscribed), isSubscribed)
    ensures QuotaExceeded("pdf", PageLimit(isSubscribed) + 1, isSubscribed)
  {
    QuotaRule("pdf", PageLimit(isSubscribed), isSubscribed);
    QuotaRule("pdf", PageLimit(isSubscribed) + 1, isSubscribed);
  }

  // ---------------------------------------------------------------- ingestion

  /** How the try block of `onUploadComplete` ends for a new record: its final status, and
      the documents written under its namespace (none unless it succeeds). */
  datatype Ingestion = Ingestion(status: UploadStatus, indexed: Option<seq<Document>>)

  function IngestOutcome(fileType: string, pdfLoad: LoadOutcome, csvLoad: LoadOutcome,
                         isSubscribed: bool, index: IndexOutcome): (r: Ingestion)
    ensures r.status == SUCCESS || r.status == FAILED
    ensures r.indexed.Some? <==> r.status == SUCCESS
    ensures r.status == SUCCESS <==>
      Dispatch(fileType, pdfLoad, csvLoad).Ok?
      && !QuotaExceeded(fileType, |Dispatch(fileType, pdfLoad, csvLoad).value|, isSubscribed)
      && index.Indexed?
    ensures r.indexed.Some? ==> r.indexed.value == Dispatch(fileType, pdfLoad, csvLoad).value
  {
    match Dispatch(fileType, pdfLoad, csvLoad)
    case Err(_) => Ingestion(FAILED, None)
    case Ok(docs) =>
      if QuotaExceeded(fileType, |docs|, isSubscribed) then Ingestion(FAILED, None)
      else if index.IndexFailed? then Ingestion(FAILED, None)
      else Ingestion(SUCCESS, Some(docs))
  }

  /** Any type other than `pdf` and `csv` ends in FAILED with nothing indexed. */
  lemma UnsupportedTypeFails(fileType: string, pdfLoad: LoadOutcome, csvLoad: LoadOutcome,
                             isSubscribed: bool, index: IndexOutcome)
    requires fileType != "pdf" && fileType != "csv"
    ensures IngestOutcome(fileType, pdfLoad, csvLoad, isSubscribed, index) == Ingestion(FAILED, None)
  {
  }

  /** A PDF over the limit ends in FAILED and nothing is indexed, whatever indexing would do. */
  lemma QuotaRejectionFails(docs: seq<Document>, csvLoad: LoadOutcome, isSubscribed: bool, index: IndexOutcome)
    requires |docs| > PageLimit(isSubscribed)
    ensures IngestOutcome("pdf", Loaded(docs), csvLoad, isSubscribed, index) == Ingestion(FAILED, None)
  {
    QuotaRule("pdf", |docs|, isSubscribed);
  }

  /** A loaded CSV is never stopped by the quota, however many rows it has: it succeeds
      exactly when indexing does. */
  lemma CsvIgnoresQuota(pdfLoad: LoadOutcome, rows: seq<Document>, isSubscribed: bool, index: IndexOutcome)
    ensures IngestOutcome("csv", pdfLoad, Loaded(rows), isSubscribed, index)
         == if index.Indexed? then Ingestion(SUCCESS, Some(rows)) else Ingestion(FAILED, None)
  {
    QuotaRule("csv", |rows|, isSubscribed);
  }

  const UTFS_PREFIX: string := "https://utfs.io/f/"

  /** `https://utfs.io/f/${file.key}` */
  function FileUrl(key: string): string {
    UTFS_PREFIX + key
  }

  /** The key can be read back from the stored url, so distinct keys give distinct urls. */
  lemma FileUrlReadsBack(a: string, b: string)
    ensures |FileUrl(a)| == |UTFS_PREFIX| + |a| && FileUrl(a)[|UTFS_PREFIX|..] == a
    ensures FileUrl(a) == FileUrl(b) <==> a == b
  {
    assert FileUrl(a)[|UTFS_PREFIX|..] == a;
    assert FileUrl(b)[|UTFS_PREFIX|..] == b;
  }

  /** Writing a key twice keeps the second value only. */
  lemma OverwriteTwice<K, V>(m: map<K, V>, k: K, first: V, second: V)
    ensures m[k := first][k := second] == m[k := second]
  {
  }

  /** Appending twice is appending the pair. */
  lemma AppendTwice<T>(s: seq<T>, x: T, y: T)
    ensures s + [x] + [y] == s + [x, y]
  {
  }

  /** The file table, indexed both by id and by storage key, and the vector index. */
  ghost predicate KeyedById(files: map<string, FileRecord>) {
    forall id | id in files :: files[id].id == id
  }

  class FileStore {
    /** File rows by id. */
    var files: map<string, FileRecord>
    /** The id of the row holding each storage key. */
    var idByKey: map<string, string>
    /** The vector index: the documents stored under each namespace. */
    var namespaces: map<string, seq<Document>>
    /** Every status written to a row, in order, with the row's id. */
    ghost var history: seq<(string, UploadStatus)>

    /** One row per key; a namespace exists exactly for the rows in SUCCESS. */
    ghost predicate Valid()
      reads this
    {
      && KeyedById(files)
      && (forall id | id in files :: files[id].key in idByKey && idByKey[files[id].key] == id)
      && (forall k | k in idByKey :: idByKey[k] in files && files[idByKey[k]].key == k)
      && (forall id | id in namespaces :: id in files && files[id].uploadStatus == SUCCESS)
      && (forall id | id in files && files[id].uploadStatus == SUCCESS :: id in namespaces)
    }

    constructor ()
      ensures Valid()
      ensures files == map[] && idByKey == map[] && namespaces == map[] && history == []
    {
      files, idByKey, namespaces := map[], map[], map[];
      history := [];
    }

    /** `db.file.findFirst({ where: { key } })`. */
    function FindByKey(key: string): (r: Option<FileRecord>)
      reads this
      requires Valid()
      ensures r.Some? <==> exists id :: id in files && files[id].key == key
      ensures r.Some? ==> r.value in files.Values && r.value.key == key
    {
      if key in idByKey then Some(files[idByKey[key]]) else None
    }

    /** `db.file.create` of a row in PROCESSING for a key not yet stored, under an id not
        yet used. */
    method Create(record: FileRecord)
      requires Valid()
      requires record.id !in files && record.key !in idByKey
      requires record.uploadStatus == PROCESSING
      modifies this
      ensures Valid()
      ensures files == old(files)[record.id := record]
      ensures idByKey == old(idByKey)[record.key := record.id]
      ensures namespaces == old(namespaces)
      ensures history == old(history) + [(record.id, PROCESSING)]
    {
      files := files[record.id := record];
      idByKey := idByKey[record.key := record.id];
      history := history + [(record.id, PROCESSING)];
    }

    /** `db.file.update({ data: { uploadStatus: 'FAILED' }, where: { id } })` on a row still
        in PROCESSING. */
    method MarkFailed(id: string)
      requires Valid()
      requires id in files && files[id].uploadStatus == PROCESSING
      modifies this
      ensures Valid()
      ensures files == old(files)[id := old(files)[id].(uploadStatus := FAILED)]
      ensures idByKey == old(idByKey) && namespaces == old(namespaces)
      ensures history == old(history) + [(id, FAILED)]
    {
      files := files[id := files[id].(uploadStatus := FAILED)];
      history := history + [(id, FAILED)];
    }

    /** `PineconeStore.fromDocuments` under namespace `id`, then
        `db.file.update({ data: { uploadStatus: 'SUCCESS' }, where: { id } })`. */
    method MarkIndexed(id: string, docs: seq<Document>)
      requires Valid()
      requires id in files && files[id].uploadStatus == PROCESSING
      modifies this
      ensures Valid()
      ensures files == old(files)[id := old(files)[id].(uploadStatus := SUCCESS)]
      ensures idByKey == old(idByKey) && namespaces == old(namespaces)[id := docs]
      ensures history == old(history) + [(id, SUCCESS)]
    {
      namespaces := namespaces[id := docs];
      files := files[id := files[id].(uploadStatus := SUCCESS)];
      history := history + [(id, SUCCESS)];
    }

    /** The try/catch block of `onUploadComplete` for the row `id` just created: load, apply
        the quota, index, and set the row's final status. */
    method Ingest(id: string, fileType: string, pdfLoad: LoadOutcome, csvLoad: LoadOutcome,
                  isSubscribed: bool, index: IndexOutcome)
      returns (status: UploadStatus)
      requires Valid()
      requires id in files && files[id].uploadStatus == PROCESSING
      modifies this
      ensures Valid()
      ensures var out := IngestOutcome(fileType, pdfLoad, csvLoad, isSubscribed, index);
        && status == out.status
        && files == old(files)[id := old(files)[id].(uploadStatus := status)]
        && idByKey == old(idByKey)
        && namespaces == (if out.indexed.Some? then old(namespaces)[id := out.indexed.value] else old(namespaces))
        && history == old(history) + [(id, status)]
    {
      var pageLevelDocs := ProcessFile(fileType, pdfLoad, csvLoad);
      if pageLevelDocs.Err? {
        MarkFailed(id);
        return FAILED;
      }
      var pagesAmt := |pageLevelDocs.value|;
      if QuotaExceeded(fileType, pagesAmt, isSubscribed) {
        MarkFailed(id);
        return FAILED;
      }
      if index.IndexFailed? {
        MarkFailed(id);
        return FAILED;
      }
      MarkIndexed(id, pageLevelDocs.value);
      return SUCCESS;
    }

    /** `onUploadComplete`. A known key returns at once. Otherwise one record is created in
        PROCESSING and then set once more, to SUCCESS after its documents were written under
        the namespace equal to its id, or to FAILED. `newId` is the id the database assigns. */
    method OnUploadComplete(metadata: UploadMetadata, key: string, name: string, newId: string,
                            pdfLoad: LoadOutcome, csvLoad: LoadOutcome, index: IndexOutcome)
      requires Valid()
      requires newId !in files
      modifies this
      ensures Valid()
      ensures key in old(idByKey) ==>
        && history == old(history)
        && files == old(files) && idByKey == old(idByKey) && namespaces == old(namespaces)
      ensures key !in old(idByKey) ==>
        var fileType := FileTypeOf(name);
        var out := IngestOutcome(fileType, pdfLoad, csvLoad, metadata.subscriptionPlan.isSubscribed, index);
        && files == old(files)[newId := FileRecord(newId, key, name, metadata.userId, FileUrl(key), out.status, fileType)]
        && idByKey == old(idByKey)[key := newId]
        && namespaces == (if out.indexed.Some? then old(namespaces)[newId := out.indexed.value] else old(namespaces))
        && history == old(history) + [(newId, PROCESSING), (newId, out.status)]
    {
      var isFileExist := FindByKey(key);
      if isFileExist.Some? {
        return;
      }
      var fileType := FileTypeOf(name);
      var createdFile := FileRecord(newId, key, name, metadata.userId, FileUrl(key), PROCESSING, fileType);
      Create(createdFile);
      var status := Ingest(newId, fileType, pdfLoad, csvLoad, metadata.subscriptionPlan.isSubscribed, index);
      OverwriteTwice(old(files), newId, createdFile, createdFile.(uploadStatus := status));
      AppendTwice(old(history), (newId, PROCESSING), (newId, status));
    }
  }

  /** A 3-page PDF on the free plan is indexed; a 30-page one fails with nothing indexed. */
  lemma FreePlanScenarios(three: seq<Document>, thirty: seq<Document>, csvLoad: LoadOutcome)
    requires |three| == 3 && |thirty| == 30
    ensures IngestOutcome("pdf", Loaded(three), csvLoad, false, Indexed) == Ingestion(SUCCESS, Some(three))
    ensures IngestOutcome("pdf", Loaded(thirty), csvLoad, false, Indexed) == Ingestion(FAILED, None)
  {
    QuotaRule("pdf", 3, false);
    QuotaRule("pdf", 30, false);
  }
}
