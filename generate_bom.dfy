/** exelGeneratedFunction/generateExelFromJsonBom.py: the Lambda handler that
    builds the cost table leniently, writes it with a yellow header, stores
    the workbook and its metadata and returns the stored file. Every
    exception becomes a 500 response carrying its message. */
module GenerateBom {
  import opened Wrappers
  import opened Bom
  import opened CostTable
  import opened Sheet
  import opened Storage
  import opened Http

  const Bucket: string := "generated-bom-files"
  const Table: string := "generated_bom_files_metadata"
  const XlsxType: string := "application/vnd.openxmlformats-officedocument.spreadsheetml.sheet"
  const NoJsonData: string := "No JSON data provided"

  /** `{"statusCode": status, "body": json.dumps({"error": message})}`. */
  function Failure(status: nat, message: string): Response {
    Plain(status, ErrorBody(message))
  }

  /** How far the event gets through the checks before the workbook is
      built: stopped with a response, or let through with the caller's
      email and the services of the document. */
  datatype Intake = Rejected(response: Response) | Accepted(email: string, services: seq<Service>)

  /** The caller's `authorizer` entries, when the event has them. */
  function AuthorizerEntries(event: Event): Option<map<string, string>> {
    match event.requestContext
    case None => None
    case Some(ctx) => if ctx.authorizer.None? then None else Some(ctx.authorizer.value.entries)
  }

  /** `authorizer_context.get("email")` is truthy. */
  predicate Authenticated(event: Event) {
    AuthorizerEntries(event).Some? && "email" in AuthorizerEntries(event).value && AuthorizerEntries(event).value["email"] != ""
  }

  /** generateExelFromJsonBom.py:23-44, up to the list of services. */
  function Admit(event: Event): (r: Intake)
    ensures r.Accepted? <==> Authenticated(event) && event.body.Ok? && event.body.value.Object?
                             && !event.body.value.doc.IsEmpty()
    ensures r.Accepted? ==> r.email == AuthorizerEntries(event).value["email"] && r.services == Services(event.body.value.doc)
    ensures r.Rejected? && r.response.status == 401 <==> AuthorizerEntries(event).Some? && !Authenticated(event)
    ensures r.Rejected? && r.response.status == 400 <==>
              Authenticated(event) && event.body.Ok? && !Truthy(event.body.value)
    ensures r.Rejected? ==> r.response.status in {400, 401, 500} && r.response.body.ErrorBody?
                            && !r.response.isBase64Encoded
    ensures event.requestContext.None? ==> r == Rejected(Failure(500, MissingKey("requestContext")))
    ensures event.requestContext.Some? && event.requestContext.value.authorizer.None? ==>
              r == Rejected(Failure(500, MissingKey("authorizer")))
    ensures r.Rejected? && r.response.status == 401 ==> r.response == Unauthorized
    ensures r.Rejected? && r.response.status == 400 ==> r.response == Failure(400, NoJsonData)
    ensures Authenticated(event) && event.body.Err? ==> r == Rejected(Failure(500, event.body.error))
    ensures Authenticated(event) && event.body.Ok? && Truthy(event.body.value) && event.body.value.Scalar? ==>
              r == Rejected(Failure(500, "'" + event.body.value.typeName + "' object has no attribute 'get'"))
  {
    if event.requestContext.None? then Rejected(Failure(500, MissingKey("requestContext")))
    else if event.requestContext.value.authorizer.None? then Rejected(Failure(500, MissingKey("authorizer")))
    else if !Authenticated(event) then Rejected(Unauthorized)
    else match event.body
      case Err(message) => Rejected(Failure(500, message))
      case Ok(data) =>
        if !Truthy(data) then Rejected(Failure(400, NoJsonData))
        else match data
          case Scalar(typeName, _) => Rejected(Failure(500, "'" + typeName + "' object has no attribute 'get'"))
          case Object(doc) => Accepted(AuthorizerEntries(event).value["email"], Services(doc))
  }

  /** The EST sheet this handler writes for the services `ss`: the data
      frame as pandas writes it, with the header row rewritten in yellow. */
  ghost predicate IsBomSheet(sheet: SheetData, ss: seq<Service>) {
    && (forall r: nat, c: nat :: CellAt(sheet.cells, r, c) == BomCell(LenientTable(ss), r, c))
    && sheet.heights == map[] && sheet.merges == [] && sheet.images == []
  }

  /** generateExelFromJsonBom.py:45-89: the columns collected leniently,
      the data frame with its two trailer rows, and the sheet written from it. */
  method BuildBomSheet(ss: seq<Service>) returns (sheet: SheetData)
    ensures IsBomSheet(sheet, ss)
  {
    var cols := CollectLenient(ss);
    var df := new DataFrame(cols);
    TotalsAreSums(ss);
    var totalMonthly, totalYearly := AppendTotals(df);
    assert df.rows == LenientTable(ss);
    var ws := RenderBom(df.rows);
    sheet := ws.Snapshot();
  }

  /** The exception `put_item` raises, if any. */
  function PutError(tables: map<string, seq<Item>>, fault: Option<string>): Option<string> {
    if fault.Some? then fault
    else if Table !in tables then Some(MissingTable("PutItem"))
    else None
  }

  /** The 200 response that hands the stored workbook back to the caller. */
  function Download(fileId: string, content: SheetData): (resp: Response)
    ensures resp.status == 200 && resp.isBase64Encoded && resp.body == FileBody(content)
    ensures resp.headers.Keys == {"Content-Type", "Content-Disposition"}
    ensures resp.headers["Content-Type"] == XlsxType
    ensures resp.headers["Content-Disposition"] == "attachment; filename=" + fileId + ".xlsx"
  {
    Response(200, map["Content-Type" := XlsxType, "Content-Disposition" := "attachment; filename=" + fileId + ".xlsx"],
             true, FileBody(content))
  }

  /** generateExelFromJsonBom.py:93-122: upload, metadata, download. */
  method Store(aws: Aws, sheet: SheetData, email: string, fileId: string, now: string, faults: Faults)
    returns (resp: Response)
    modifies aws
    ensures faults.upload.Some? ==> resp == Failure(500, faults.upload.value) && unchanged(aws)
    ensures faults.upload.None? ==> aws.objects == old(aws.objects)[(Bucket, S3Key(email, fileId)) := sheet]
    ensures faults.upload.None? ==>
              var item, error := MetadataItem(Bucket, email, fileId, now), PutError(old(aws.tables), faults.putItem);
              if error.None? then
                && aws.tables == old(aws.tables)[Table := PutInto(old(aws.tables)[Table], item)]
                && aws.log == old(aws.log) + [UploadCall(Bucket, S3Key(email, fileId)), PutItemCall(Table, item)]
                && resp == (if faults.getObject.Some? then Failure(500, faults.getObject.value) else Download(fileId, sheet))
              else
                && resp == Failure(500, error.value)
                && aws.tables == old(aws.tables)
                && aws.log == old(aws.log) + [UploadCall(Bucket, S3Key(email, fileId))]
  {
    var key := S3Key(email, fileId);
    var uploaded := aws.UploadFileobj(sheet, Bucket, key, faults.upload);
    if uploaded.Err? {
      return Failure(500, uploaded.error);
    }
    var item := MetadataItem(Bucket, email, fileId, now);
    var stored := aws.PutItem(Table, item, faults.putItem);
    if stored.Err? {
      return Failure(500, stored.error);
    }
    var fetched := aws.GetObject(Bucket, key, faults.getObject);
    if fetched.Err? {
      return Failure(500, fetched.error);
    }
    resp := Download(fileId, fetched.value);
  }

  /** `lambda_handler(event, context)`: `fileId` is the `uuid4()` and `now`
      the `utcnow().isoformat()` of the call. */
  method Handle(aws: Aws, event: Event, fileId: string, now: string, faults: Faults) returns (resp: Response)
    modifies aws
    ensures Admit(event).Rejected? ==> resp == Admit(event).response && unchanged(aws)
    ensures Admit(event).Accepted? && faults.upload.Some? ==>
              resp == Failure(500, faults.upload.value) && unchanged(aws)
    ensures Admit(event).Accepted? && faults.upload.None? ==>
              var key := (Bucket, S3Key(Admit(event).email, fileId));
              && key in aws.objects && IsBomSheet(aws.objects[key], Admit(event).services)
              && aws.objects == old(aws.objects)[key := aws.objects[key]]
              && (resp.status == 200 <==> PutError(old(aws.tables), faults.putItem).None? && faults.getObject.None?)
              && (resp.status == 200 ==> resp == Download(fileId, aws.objects[key]))
              && (resp.status != 200 ==> resp.status == 500 && resp.body.ErrorBody?)
    ensures Admit(event).Accepted? && faults.upload.None? ==>
              var item := MetadataItem(Bucket, Admit(event).email, fileId, now);
              var upload := UploadCall(Bucket, S3Key(Admit(event).email, fileId));
              if PutError(old(aws.tables), faults.putItem).None? then
                && aws.tables == old(aws.tables)[Table := PutInto(old(aws.tables)[Table], item)]
                && aws.log == old(aws.log) + [upload, PutItemCall(Table, item)]
              else
                aws.tables == old(aws.tables) && aws.log == old(aws.log) + [upload]
  {
    var intake := Admit(event);
    if intake.Rejected? {
      return intake.response;
    }
    var sheet := BuildBomSheet(intake.services);
    resp := Store(aws, sheet, intake.email, fileId, now, faults);
  }
}
