/** The two exception-to-response tables (common/exception and
    common/exception/handler) and `BadRequestErrorResponse`, which groups
    rejected request fields.  The exception's `getMessage()` and the
    request description are parameters; the timestamp is left out. */
module ExceptionHandling {
  import opened Wrappers

  const BadRequest := 400
  const NotFound := 404
  const PayloadTooLarge := 413
  const UnprocessableContent := 422
  const InternalServerError := 500

  /** One entry of `BadRequestErrorResponse.errors`. */
  datatype ErrorEntry = ErrorEntry(field: string, messages: seq<Option<string>>)

  /** The body: `ErrorResponse`, or `BadRequestErrorResponse` with its
      grouped field errors. */
  datatype ErrorBody =
    | Plain(status: int, message: Option<string>, details: string)
    | WithFieldErrors(status: int, message: Option<string>, details: string, errors: seq<ErrorEntry>)

  /** A `ResponseEntity`: the HTTP status and the body. */
  datatype Response = Response(httpStatus: int, body: ErrorBody)

  /** The default messages of the errors on one field, in encounter order
      (`groupingBy` with `mapping(getDefaultMessage, toList())`). */
  function MessagesOf(errors: seq<FieldError>, field: string): (r: seq<Option<string>>)
    ensures |r| <= |errors|
    ensures r == [] <==> forall i :: 0 <= i < |errors| ==> errors[i].field != field
  {
    if errors == [] then []
    else
      var last := errors[|errors| - 1];
      var before := MessagesOf(errors[..|errors| - 1], field);
      assert forall i :: 0 <= i < |errors| - 1 ==> errors[i] == errors[..|errors| - 1][i];
      if last.field == field then before + [last.defaultMessage] else before
  }

  /** No field twice. */
  predicate DistinctFields(fields: seq<string>)
  {
    forall i, j :: 0 <= i < j < |fields| ==> fields[i] != fields[j]
  }

  /** The distinct fields in order of first appearance. */
  function FieldsInOrder(errors: seq<FieldError>): (r: seq<string>)
    ensures DistinctFields(r)
    ensures forall i :: 0 <= i < |errors| ==> errors[i].field in r
    ensures forall f :: f in r ==> exists i :: 0 <= i < |errors| && errors[i].field == f
  {
    if errors == [] then []
    else
      var last := errors[|errors| - 1];
      var before := FieldsInOrder(errors[..|errors| - 1]);
      assert forall i :: 0 <= i < |errors| - 1 ==> errors[i] == errors[..|errors| - 1][i];
      if last.field in before then before else before + [last.field]
  }

  /** The fields of a list of entries. */
  function EntryFields(entries: seq<ErrorEntry>): (r: seq<string>)
    ensures |r| == |entries|
    ensures forall i :: 0 <= i < |entries| ==> r[i] == entries[i].field
  {
    seq(|entries|, i requires 0 <= i < |entries| => entries[i].field)
  }

  /** What the grouping promises, whatever order the hash map yields: one
      entry per distinct field, each with that field's messages in
      encounter order. */
  predicate IsGrouping(errors: seq<FieldError>, entries: seq<ErrorEntry>)
  {
    DistinctFields(EntryFields(entries))
    && (forall i :: 0 <= i < |errors| ==> errors[i].field in EntryFields(entries))
    && (forall i :: 0 <= i < |entries| ==> entries[i].messages == MessagesOf(errors, entries[i].field))
    && (forall i :: 0 <= i < |entries| ==> entries[i].messages != [])
  }

  /** The grouping in order of first appearance; the source's order comes
      from a `HashMap` and is unspecified, which `IsGrouping` allows. */
  function GroupFieldErrors(errors: seq<FieldError>): (r: seq<ErrorEntry>)
    ensures IsGrouping(errors, r)
    ensures EntryFields(r) == FieldsInOrder(errors)
  {
    var fields := FieldsInOrder(errors);
    var r := seq(|fields|, i requires 0 <= i < |fields| => ErrorEntry(fields[i], MessagesOf(errors, fields[i])));
    assert EntryFields(r) == fields;
    forall i | 0 <= i < |r| ensures r[i].messages != [] {
      assert fields[i] in fields;
      var k :| 0 <= k < |errors| && errors[k].field == fields[i];
    }
    r
  }

  /** The number of messages over all entries. */
  function TotalMessages(entries: seq<ErrorEntry>): nat
  {
    if entries == [] then 0 else |entries[0].messages| + TotalMessages(entries[1..])
  }

  /** The number of messages over a list of fields. */
  function CountFor(errors: seq<FieldError>, fields: seq<string>): nat
  {
    if fields == [] then 0 else |MessagesOf(errors, fields[0])| + CountFor(errors, fields[1..])
  }

  lemma {:induction false} CountForNoErrors(fields: seq<string>)
    ensures CountFor([], fields) == 0
  {
    if fields != [] {
      CountForNoErrors(fields[1..]);
    }
  }

  /** One more error adds one message, on its own field only. */
  lemma {:induction false} CountForSnoc(errors: seq<FieldError>, e: FieldError, fields: seq<string>)
    requires DistinctFields(fields)
    ensures CountFor(errors + [e], fields) == CountFor(errors, fields) + (if e.field in fields then 1 else 0)
  {
    if fields != [] {
      assert (errors + [e])[..|errors + [e]| - 1] == errors;
      assert DistinctFields(fields[1..]) by {
        forall i, j | 0 <= i < j < |fields[1..]| ensures fields[1..][i] != fields[1..][j] {
          assert fields[1..][i] == fields[i + 1] && fields[1..][j] == fields[j + 1];
        }
      }
      CountForSnoc(errors, e, fields[1..]);
      assert e.field in fields <==> e.field == fields[0] || e.field in fields[1..];
      assert e.field == fields[0] ==> e.field !in fields[1..];
    }
  }

  /** Over distinct fields covering every error, the count is the number of
      errors. */
  lemma {:induction false} CountForAll(errors: seq<FieldError>, fields: seq<string>)
    requires DistinctFields(fields)
    requires forall i :: 0 <= i < |errors| ==> errors[i].field in fields
    ensures CountFor(errors, fields) == |errors|
  {
    if errors == [] {
      CountForNoErrors(fields);
    } else {
      var before := errors[..|errors| - 1];
      var e := errors[|errors| - 1];
      assert errors == before + [e];
      assert forall i :: 0 <= i < |before| ==> before[i] == errors[i];
      CountForAll(before, fields);
      CountForSnoc(before, e, fields);
    }
  }

  /** The entries' total is the count over their fields. */
  lemma {:induction false} TotalIsCount(errors: seq<FieldError>, entries: seq<ErrorEntry>)
    requires forall i :: 0 <= i < |entries| ==> entries[i].messages == MessagesOf(errors, entries[i].field)
    ensures TotalMessages(entries) == CountFor(errors, EntryFields(entries))
  {
    if entries != [] {
      assert EntryFields(entries)[1..] == EntryFields(entries[1..]);
      TotalIsCount(errors, entries[1..]);
    }
  }

  /** Any grouping, in any order, holds exactly as many messages as there
      were field errors. */
  lemma GroupingKeepsEveryMessage(errors: seq<FieldError>, entries: seq<ErrorEntry>)
    requires IsGrouping(errors, entries)
    ensures TotalMessages(entries) == |errors|
  {
    TotalIsCount(errors, entries);
    CountForAll(errors, EntryFields(entries));
  }

  /** Every grouping has one entry per distinct field: as many entries as
      the fields in order of first appearance. */
  lemma GroupingHasOneEntryPerField(errors: seq<FieldError>, entries: seq<ErrorEntry>)
    requires IsGrouping(errors, entries)
    ensures forall i :: 0 <= i < |entries| ==> entries[i].field in FieldsInOrder(errors)
    ensures forall f :: f in FieldsInOrder(errors) ==> f in EntryFields(entries)
  {
    forall i | 0 <= i < |entries| ensures entries[i].field in FieldsInOrder(errors) {
      var f := entries[i].field;
      assert MessagesOf(errors, f) != [];
      var k :| 0 <= k < |errors| && errors[k].field == f;
    }
  }

  /** `new BadRequestErrorResponse(..., bindingResult)`. */
  function NewBadRequestBody(status: int, message: Option<string>, details: string, fieldErrors: seq<FieldError>)
    : (r: ErrorBody)
    ensures r.WithFieldErrors? && r.status == status && r.message == message && r.details == details
    ensures IsGrouping(fieldErrors, r.errors) && TotalMessages(r.errors) == |fieldErrors|
  {
    var entries := GroupFieldErrors(fieldErrors);
    GroupingKeepsEveryMessage(fieldErrors, entries);
    WithFieldErrors(status, message, details, entries)
  }

  /** `new BadRequestErrorResponse(..., errors)`: the list is kept as given. */
  function BadRequestBodyOf(status: int, message: Option<string>, details: string, errors: seq<ErrorEntry>)
    : (r: ErrorBody)
    ensures r.WithFieldErrors? && r.errors == errors && r.status == status
  {
    WithFieldErrors(status, message, details, errors)
  }

  /** handler/GlobalExceptionHandler: the response for each handled
      exception type, `None` for the others. */
  function AdviceResponse(ex: Exception, message: Option<string>, description: string): (r: Option<Response>)
    ensures r.Some? <==> (ex.MethodArgumentNotValid? || ex.BindFailure? || ex.ResourceNotFound?
                          || ex.UnprocessableEntity? || ex.Domain? || ex.MaxUploadSizeExceeded? || ex.FileStorage?)
    ensures r.Some? ==> r.value.body.message == message && r.value.body.details == description
  {
    match ex
    case MethodArgumentNotValid(fieldErrors) =>
      Some(Response(BadRequest, NewBadRequestBody(NotFound, message, description, fieldErrors)))
    case BindFailure(fieldErrors) =>
      Some(Response(BadRequest, NewBadRequestBody(NotFound, message, description, fieldErrors)))
    case ResourceNotFound(_) => Some(Response(NotFound, Plain(NotFound, message, description)))
    case UnprocessableEntity(_) => Some(Response(UnprocessableContent, Plain(UnprocessableContent, message, description)))
    case Domain(_) => Some(Response(InternalServerError, Plain(NotFound, message, description)))
    case MaxUploadSizeExceeded(_) => Some(Response(PayloadTooLarge, Plain(PayloadTooLarge, message, description)))
    case FileStorage(_) => Some(Response(InternalServerError, Plain(InternalServerError, message, description)))
    case _ => None
  }

  /** The statuses of that table: the body's status disagrees with the
      response's exactly for domain and request-validation errors, which
      carry 404 in the body; domain and file-storage errors answer 500. */
  lemma AdviceStatuses(ex: Exception, message: Option<string>, description: string)
    requires AdviceResponse(ex, message, description).Some?
    ensures var r := AdviceResponse(ex, message, description).value;
      (r.httpStatus == r.body.status <==> !(ex.Domain? || ex.MethodArgumentNotValid? || ex.BindFailure?))
      && (ex.Domain? || ex.MethodArgumentNotValid? || ex.BindFailure? ==> r.body.status == NotFound)
      && (ex.ResourceNotFound? ==> r.httpStatus == NotFound)
      && (ex.UnprocessableEntity? ==> r.httpStatus == UnprocessableContent)
      && (ex.MaxUploadSizeExceeded? ==> r.httpStatus == PayloadTooLarge)
      && (r.httpStatus == BadRequest <==> ex.MethodArgumentNotValid? || ex.BindFailure?)
      && (ex.Domain? || ex.FileStorage? ==> r.httpStatus == InternalServerError)
      && (ex.FileStorage? ==> r.body.status == InternalServerError)
  {
  }

  /** common/exception/GlobalExceptionHandler: 404 for a missing resource,
      500 for everything else, the body repeating the status. */
  function GlobalResponse(ex: Exception, message: Option<string>, description: string): (r: Response)
    ensures r.httpStatus == r.body.status
    ensures r.httpStatus == (if ex.ResourceNotFound? then NotFound else InternalServerError)
    ensures r.body == Plain(r.httpStatus, message, description)
  {
    if ex.ResourceNotFound? then Response(NotFound, Plain(NotFound, message, description))
    else Response(InternalServerError, Plain(InternalServerError, message, description))
  }
}
