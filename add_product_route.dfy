/** The `POST /api/AddProduct` handler: the required-field gate, the stamped record and
    the choice of status code. The database connection and the insert are given as the
    outcome of inserting a record; the two timestamps are given values. */
module AddProductRoute {
  import opened Js
  import opened Text
  import ProductForm

  /** The request body: parsed JSON, or a body that `request.json()` rejects. */
  datatype RequestBody = Body(json: Json) | Unparseable

  /** What the database step gives: the connection fails, the insert throws, or the
      insert is acknowledged with an `insertedId` that may be missing. */
  datatype DbOutcome = ConnectFailed | InsertThrew | Acknowledged(insertedId: Option<Json>)

  datatype Response = Response(status: int, body: map<string, Json>)

  /** The response, and the record built for the insert once the gate passed; whether it
      is stored is up to the database step, which may fail before the insert. */
  datatype PostResult = PostResult(response: Response, record: Option<map<string, Json>>)

  const MissingFields: string := "Missing required fields: name, price, and sku are required"
  const InsertFailedMessage: string := "Failed to insert product into database"
  const InternalError: string := "Internal server error. Please try again later."
  const AddedMessage: string := "Electronic product added successfully!"

  /** `productData[key]` for a parsed body other than `null` (reading a property of
      `null` throws). Primitives and arrays have none of the fields the gate reads. */
  function Field(body: Json, key: string): Option<Json>
  {
    if body.JObj? then Get(body.fields, key) else None
  }

  /** The gate: `!name || !price || !sku`. */
  predicate MissingRequired(body: Json)
  {
    !Truthy(Field(body, "name")) || !Truthy(Field(body, "price")) || !Truthy(Field(body, "sku"))
  }

  /** `{...productData, createdAt, updatedAt}` for an object body. */
  function Stamped(fields: map<string, Json>, createdAt: Json, updatedAt: Json): (record: map<string, Json>)
    ensures record.Keys == fields.Keys + {"createdAt", "updatedAt"}
    ensures record["createdAt"] == createdAt && record["updatedAt"] == updatedAt
    ensures forall k :: k in fields && k != "createdAt" && k != "updatedAt" ==> record[k] == fields[k]
  {
    fields["createdAt" := createdAt]["updatedAt" := updatedAt]
  }

  function ErrorBody(message: string): map<string, Json>
  {
    map["error" := JStr(message)]
  }

  /** The handler. Every exception (an unparseable body, a `null` body, a failed
      connection, a failed insert) lands in the one `catch` and gives the generic 500. */
  function Post(request: RequestBody, db: map<string, Json> -> DbOutcome, createdAt: Json, updatedAt: Json): (r: PostResult)
    ensures r.response.status == 201 || r.response.status == 400 || r.response.status == 500
    // the gate: a parsed, non-null body missing a field is refused before any insert
    ensures r.response.status == 400 <==> request.Body? && request.json != JNull && MissingRequired(request.json)
    ensures r.response.status == 400 ==> r.response.body == ErrorBody(MissingFields) && r.record.None?
    // past the gate: the record is the body stamped with both timestamps
    ensures r.record.Some? <==> request.Body? && request.json.JObj? && !MissingRequired(request.json)
    ensures r.record.Some? ==> r.record.value == Stamped(request.json.fields, createdAt, updatedAt)
    // the insert's acknowledgement decides between 201 and 500
    ensures r.response.status == 201 <==> r.record.Some? && db(r.record.value).Acknowledged? && Truthy(db(r.record.value).insertedId)
    ensures r.response.status == 201 ==>
      r.response.body == map["success" := JBool(true), "message" := JStr(AddedMessage), "productId" := db(r.record.value).insertedId.value]
    ensures r.record.Some? && db(r.record.value).Acknowledged? && !Truthy(db(r.record.value).insertedId) ==>
      r.response == Response(500, ErrorBody(InsertFailedMessage))
    ensures r.response.status == 500 && !(r.record.Some? && db(r.record.value).Acknowledged?) ==>
      r.response.body == ErrorBody(InternalError)
  {
    match request
    case Unparseable => PostResult(Response(500, ErrorBody(InternalError)), None)
    case Body(json) =>
      if json == JNull then PostResult(Response(500, ErrorBody(InternalError)), None)
      else if MissingRequired(json) then PostResult(Response(400, ErrorBody(MissingFields)), None)
      else
        var record := Stamped(json.fields, createdAt, updatedAt);
        var outcome := db(record);
        if outcome.Acknowledged? && Truthy(outcome.insertedId) then
          PostResult(Response(201, map["success" := JBool(true), "message" := JStr(AddedMessage), "productId" := outcome.insertedId.value]), Some(record))
        else if outcome.Acknowledged? then
          PostResult(Response(500, ErrorBody(InsertFailedMessage)), Some(record))
        else
          PostResult(Response(500, ErrorBody(InternalError)), Some(record))
  }

  /** A price of 0 is falsy, so a numeric zero price is refused like a missing one. */
  lemma ZeroPriceRefused(name: string, sku: string, db: map<string, Json> -> DbOutcome, createdAt: Json, updatedAt: Json)
    ensures Post(Body(JObj(map["name" := JStr(name), "price" := JNum(0.0), "sku" := JStr(sku)])), db, createdAt, updatedAt).response.status == 400
  {
  }

  /** A form that passes the page's gates always has a truthy name and price, but the
      page never checks the SKU: the server then refuses it exactly when the SKU is empty. */
  lemma ServerGateAfterClientGates(form: ProductForm.Form, images: Json,
                                   parseFloat: string -> ProductForm.Number, parseInt: string -> ProductForm.Number,
                                   db: map<string, Json> -> DbOutcome, createdAt: Json, updatedAt: Json)
    requires ProductForm.Validate(form, parseFloat, parseInt).None?
    requires "sku" in form && form["sku"].JStr?
    ensures Post(Body(JObj(form["images" := images])), db, createdAt, updatedAt).response.status == 400
            <==> form["sku"].s == ""
  {
    var body := JObj(form["images" := images]);
    assert Trim(StringField(form, "name")) != "";
    assert StringField(form, "name") != "";
    assert Truthy(Field(body, "name"));
    assert Truthy(Field(body, "price"));
  }
}
