/**
 * The transactions API route: GET lists the caller's transactions and POST
 * stores a new one. Both refuse a request without an authenticated user
 * before touching the store, and turn any thrown error into a 500.
 *
 * The authenticated user, the parsed request body, the store's query result
 * and add outcome, the clock, `new Date(...)` and `toISOString` are inputs.
 * Store timestamps are milliseconds.
 */
module TransactionsRoute {
  import opened Common
  import opened JsonData
  import opened NumberText

  /** A response: its HTTP status and its JSON body. */
  datatype Response = Response(status: int, body: Json)

  function ErrorResponse(status: int, message: string): Response
  {
    Response(status, JObject(map["error" := JString(message)]))
  }

  const Unauthorized: Response := ErrorResponse(401, "Unauthorized")
  const FetchFailed: Response := ErrorResponse(500, "Failed to fetch transactions")
  const MissingFields: Response := ErrorResponse(400, "Missing required fields")
  const CreateFailed: Response := ErrorResponse(500, "Failed to create transaction")

  /**
   * A stored transaction document: its id, its data fields other than
   * `date` and `createdAt`, and those two when they hold store timestamps
   * (None when missing or not a timestamp, where `.toDate()` throws).
   */
  datatype StoredDoc = StoredDoc(id: string, fields: map<string, Json>, date: Option<int>, createdAt: Option<int>)

  /**
   * One listed transaction: the document's data with the document id, the
   * caller's uid and the two timestamps as ISO text laid over it; None when
   * a timestamp is unusable. The id is put after the data, so the document
   * id always wins.
   */
  function ListItem(doc: StoredDoc, uid: string, iso: int -> string): (r: Option<map<string, Json>>)
    ensures r.Some? <==> doc.date.Some? && doc.createdAt.Some?
    ensures r.Some? ==>
      r.value.Keys == doc.fields.Keys + {"id", "userId", "date", "createdAt"} &&
      r.value["id"] == JString(doc.id) && r.value["userId"] == JString(uid) &&
      r.value["date"] == JString(iso(doc.date.value)) && r.value["createdAt"] == JString(iso(doc.createdAt.value)) &&
      forall k :: k in doc.fields && k !in {"id", "userId", "date", "createdAt"} ==> r.value[k] == doc.fields[k]
  {
    if doc.date.None? || doc.createdAt.None? then None
    else
      Some(doc.fields + map["id" := JString(doc.id), "userId" := JString(uid),
                            "date" := JString(iso(doc.date.value)), "createdAt" := JString(iso(doc.createdAt.value))])
  }

  /**
   * The item as the route builds it, `{ id: doc.id, ...data, ... }`: the
   * document id comes first, so a data field named `id` replaces it.
   */
  function ListItemAsWritten(doc: StoredDoc, uid: string, iso: int -> string): (r: Option<map<string, Json>>)
    ensures r.Some? <==> doc.date.Some? && doc.createdAt.Some?
  {
    if doc.date.None? || doc.createdAt.None? then None
    else
      Some(map["id" := JString(doc.id)] + doc.fields +
           map["userId" := JString(uid), "date" := JString(iso(doc.date.value)), "createdAt" := JString(iso(doc.createdAt.value))])
  }

  /** Without an `id` data field the two constructions agree. */
  lemma ListItemAgrees(doc: StoredDoc, uid: string, iso: int -> string)
    requires "id" !in doc.fields
    ensures ListItemAsWritten(doc, uid, iso) == ListItem(doc, uid, iso)
  {
    if doc.date.Some? && doc.createdAt.Some? {
      var a := ListItemAsWritten(doc, uid, iso).value;
      var b := ListItem(doc, uid, iso).value;
      assert a.Keys == b.Keys;
      forall k | k in a.Keys ensures a[k] == b[k] {
        if k == "id" {
        } else if k in {"userId", "date", "createdAt"} {
        } else {
          assert k in doc.fields;
        }
      }
      assert a == b;
    }
  }

  /** A document whose data holds `id: "other"` is listed under "other", not under its own id. */
  lemma ListItemIdOverridden(iso: int -> string)
    ensures var doc := StoredDoc("doc1", map["id" := JString("other")], Some(0), Some(0));
      ListItemAsWritten(doc, "u", iso).value["id"] == JString("other") &&
      ListItem(doc, "u", iso).value["id"] == JString("doc1")
  {
  }

  /** The listed items, in store order; None when any document's timestamps are unusable. */
  function ListItems(docs: seq<StoredDoc>, uid: string, iso: int -> string): (r: Option<seq<Json>>)
    ensures r.Some? <==> forall i :: 0 <= i < |docs| ==> ListItem(docs[i], uid, iso).Some?
    ensures r.Some? ==> (|r.value| == |docs| &&
      forall i :: 0 <= i < |docs| ==> r.value[i] == JObject(ListItem(docs[i], uid, iso).value))
  {
    if docs == [] then Some([])
    else
      match ListItem(docs[0], uid, iso)
      case None => None
      case Some(item) =>
        match ListItems(docs[1..], uid, iso)
        case None =>
          assert exists i :: 1 <= i < |docs| && ListItem(docs[i], uid, iso).None? by {
            var j :| 0 <= j < |docs[1..]| && ListItem(docs[1..][j], uid, iso).None?;
            assert docs[1..][j] == docs[j + 1];
          }
          None
        case Some(rest) =>
          ListItemsCons(docs, item, rest, uid, iso);
          Some([JObject(item)] + rest)
  }

  /** The listing of a non-empty store is the first item followed by the listing of the rest. */
  lemma ListItemsCons(docs: seq<StoredDoc>, item: map<string, Json>, rest: seq<Json>, uid: string, iso: int -> string)
    requires docs != [] && ListItem(docs[0], uid, iso) == Some(item)
    requires |rest| == |docs| - 1
    requires forall i :: 0 <= i < |docs[1..]| ==> ListItem(docs[1..][i], uid, iso).Some?
    requires forall i :: 0 <= i < |docs[1..]| ==> rest[i] == JObject(ListItem(docs[1..][i], uid, iso).value)
    ensures forall i :: 0 <= i < |docs| ==> ListItem(docs[i], uid, iso).Some?
    ensures forall i :: 0 <= i < |docs| ==> ([JObject(item)] + rest)[i] == JObject(ListItem(docs[i], uid, iso).value)
  {
    forall i | 1 <= i < |docs|
      ensures ListItem(docs[i], uid, iso).Some? && ([JObject(item)] + rest)[i] == JObject(ListItem(docs[i], uid, iso).value)
    {
      assert docs[1..][i - 1] == docs[i];
    }
  }

  /**
   * GET: 401 without a user; the store's query result (None when it
   * throws), listed in the order the store returns it (date, newest first);
   * 500 when the query throws or a timestamp is unusable.
   */
  function HandleGet(user: Option<string>, store: Option<seq<StoredDoc>>, iso: int -> string): (r: Response)
    ensures user.None? ==> r == Unauthorized
    ensures user.Some? && store.None? ==> r == FetchFailed
    ensures r.status == 200 <==> user.Some? && store.Some? && ListItems(store.value, user.value, iso).Some?
    ensures r.status != 200 ==> r in {Unauthorized, FetchFailed}
    ensures r.status == 200 ==> (r.body.JArray? && |r.body.items| == |store.value| &&
      forall i :: 0 <= i < |store.value| ==>
        r.body.items[i].JObject? && "id" in r.body.items[i].fields && "userId" in r.body.items[i].fields &&
        r.body.items[i].fields["id"] == JString(store.value[i].id) &&
        r.body.items[i].fields["userId"] == JString(user.value))
  {
    if user.None? then Unauthorized
    else if store.None? then FetchFailed
    else
      match ListItems(store.value, user.value, iso)
      case None => FetchFailed
      case Some(items) => Response(200, JArray(items))
  }

  /**
   * `Number(v)` for a JSON value; None is NaN. Arrays convert through their
   * text: the empty array is 0, a one-element array converts as its element's
   * text, and a longer one (whose text holds a comma) is NaN.
   */
  function ToNumber(v: Json): (r: Option<real>)
    decreases v, 0
  {
    match v
    case JNull => Some(0.0)
    case JBool(b) => Some(if b then 1.0 else 0.0)
    case JNumber(n) => Some(n)
    case JString(s) => StringToNumber(s)
    case JObject(_) => None
    case JArray(items) =>
      if |items| == 0 then Some(0.0)
      else if |items| == 1 then ElementNumber(items[0])
      else None
  }

  /** `Number(String(x))` for an array element x: null becomes "", true and false their names. */
  function ElementNumber(x: Json): (r: Option<real>)
    decreases x, 1
  {
    match x
    case JNull => Some(0.0)
    case JBool(_) => None
    case _ => ToNumber(x)
  }

  /** A string amount holding the two-decimal text of x is stored as x rounded to the cent. */
  lemma NumberOfFixedText(x: real)
    ensures ToNumber(JString(ToFixed2(x))) == Some(Rounded2(x))
  {
    NumberFixed(x);
  }

  /** A string amount with trailing text is NaN, and `true` is 1 while `[true]` is NaN. */
  lemma NumberExamples()
    ensures ToNumber(JString("12abc")) == None
    ensures ToNumber(JBool(true)) == Some(1.0) && ToNumber(JArray([JBool(true)])) == None
  {
    NumberWhole();
  }

  /**
   * The record POST stores: the body's other fields copied, `createdAt` the
   * current time, `date` the body's date or the current time, and `amount`
   * the body's amount converted to a number (None is NaN).
   */
  datatype NewRecord = NewRecord(fields: map<string, Json>, createdAt: int, date: int, amount: Option<real>)

  /** How JSON writes a number: NaN becomes null. */
  function AmountJson(amount: Option<real>): Json
  {
    if amount.Some? then JNumber(amount.value) else JNull
  }

  /** The document data the store holds for a record, with the two timestamps apart. */
  function StoredOf(id: string, rec: NewRecord): (d: StoredDoc)
    ensures d.id == id && d.date == Some(rec.date) && d.createdAt == Some(rec.createdAt)
    ensures d.fields.Keys == rec.fields.Keys + {"amount"} && d.fields["amount"] == AmountJson(rec.amount)
  {
    StoredDoc(id, rec.fields + map["amount" := AmountJson(rec.amount)], Some(rec.date), Some(rec.createdAt))
  }

  /** The 201 body: the record with its new id, the caller's uid and ISO timestamps; the new id wins. */
  function CreatedBody(newId: string, rec: NewRecord, uid: string, iso: int -> string): (r: map<string, Json>)
    ensures r.Keys == rec.fields.Keys + {"id", "amount", "userId", "date", "createdAt"}
    ensures r["id"] == JString(newId) && r["userId"] == JString(uid) && r["amount"] == AmountJson(rec.amount)
    ensures r["date"] == JString(iso(rec.date)) && r["createdAt"] == JString(iso(rec.createdAt))
    ensures forall k :: k in rec.fields && k !in {"id", "amount", "userId", "date", "createdAt"} ==> r[k] == rec.fields[k]
  {
    rec.fields + map["amount" := AmountJson(rec.amount), "id" := JString(newId), "userId" := JString(uid),
                     "date" := JString(iso(rec.date)), "createdAt" := JString(iso(rec.createdAt))]
  }

  /** The 201 body as the route builds it, `{ id: docRef.id, ...transaction, ... }`: a body `id` replaces the new id. */
  function CreatedBodyAsWritten(newId: string, rec: NewRecord, uid: string, iso: int -> string): (r: map<string, Json>)
    ensures r.Keys == rec.fields.Keys + {"id", "amount", "userId", "date", "createdAt"}
  {
    map["id" := JString(newId)] + rec.fields +
      map["amount" := AmountJson(rec.amount), "userId" := JString(uid),
          "date" := JString(iso(rec.date)), "createdAt" := JString(iso(rec.createdAt))]
  }

  /** A POST body carrying `id: "mine"` is answered with id "mine" instead of the new document's id. */
  lemma CreatedIdOverridden(iso: int -> string)
    ensures var rec := NewRecord(map["id" := JString("mine")], 0, 0, Some(5.0));
      CreatedBodyAsWritten("new1", rec, "u", iso)["id"] == JString("mine") &&
      CreatedBody("new1", rec, "u", iso)["id"] == JString("new1")
  {
  }

  /** What POST did: its response, and the record added to the store, if one was. */
  datatype PostResult = PostResult(response: Response, write: Option<NewRecord>)

  /** The body fields that are copied unchanged into the stored record. */
  function CopiedFields(fields: map<string, Json>): map<string, Json>
  {
    fields - {"createdAt", "date", "amount"}
  }

  /** The three required fields are present and truthy. */
  predicate HasRequired(body: Json)
  {
    Truthy(Get(body, "amount")) && Truthy(Get(body, "category")) && Truthy(Get(body, "type"))
  }

  /**
   * POST. `body` is the parsed request body (None when it is not JSON),
   * `parseDate` reads `new Date(body.date)` (None for an invalid date, on
   * which the timestamp conversion throws) and `added` is the new
   * document's id (None when the store throws).
   */
  function HandlePost(user: Option<string>, body: Option<Json>, now: int, parseDate: Json -> Option<int>,
                added: Option<string>, iso: int -> string): (r: PostResult)
    ensures user.None? ==> r == PostResult(Unauthorized, None)
    ensures r.response == MissingFields <==>
      user.Some? && body.Some? && !body.value.JNull? && !HasRequired(body.value)
    ensures r.response.status == 201 <==> r.write.Some?
    ensures r.write.Some? ==>
      user.Some? && body.Some? && body.value.JObject? && HasRequired(body.value) && added.Some? &&
      var b := body.value.fields;
      var rec := r.write.value;
      rec.fields == CopiedFields(b) && rec.amount == ToNumber(b["amount"]) && rec.createdAt == now &&
      (Truthy(Get(body.value, "date")) ==> Some(rec.date) == parseDate(b["date"])) &&
      (!Truthy(Get(body.value, "date")) ==> rec.date == now) &&
      r.response == Response(201, JObject(CreatedBody(added.value, rec, user.value, iso)))
    ensures r.response.status != 201 ==> r.response in {Unauthorized, MissingFields, CreateFailed}
    ensures (user.Some? && body.Some? && body.value.JObject? && HasRequired(body.value) && added.Some? &&
             (Truthy(Get(body.value, "date")) ==> parseDate(body.value.fields["date"]).Some?))
      ==> r.write.Some?
  {
    if user.None? then PostResult(Unauthorized, None)
    else if body.None? || body.value.JNull? then PostResult(CreateFailed, None)
    else if !HasRequired(body.value) then PostResult(MissingFields, None)
    else
      var b := body.value.fields;
      var date := if Truthy(Get(body.value, "date")) then parseDate(b["date"]) else Some(now);
      if date.None? then PostResult(CreateFailed, None)
      else
        var rec := NewRecord(CopiedFields(b), now, date.value, ToNumber(b["amount"]));
        if added.None? then PostResult(CreateFailed, None)
        else PostResult(Response(201, JObject(CreatedBody(added.value, rec, user.value, iso))), Some(rec))
  }

  /** A zero amount or an empty category is refused as missing. */
  lemma FalsyRequiredRefused(now: int, parseDate: Json -> Option<int>, added: Option<string>, iso: int -> string)
    ensures HandlePost(Some("u"), Some(JObject(map["amount" := JNumber(0.0), "category" := JString("food"), "type" := JString("expense")])),
                 now, parseDate, added, iso).response == MissingFields
    ensures HandlePost(Some("u"), Some(JObject(map["amount" := JNumber(5.0), "category" := JString(""), "type" := JString("expense")])),
                 now, parseDate, added, iso).response == MissingFields
  {
    var b1 := JObject(map["amount" := JNumber(0.0), "category" := JString("food"), "type" := JString("expense")]);
    var b2 := JObject(map["amount" := JNumber(5.0), "category" := JString(""), "type" := JString("expense")]);
    assert !Truthy(Get(b1, "amount"));
    assert !Truthy(Get(b2, "category"));
  }

  /**
   * Neither the amount's sign nor the type's value is checked: any non-zero
   * amount, negative ones included, with any non-empty category and type
   * (an unknown one such as "gift" too) is stored as given.
   */
  lemma NegativeUnknownStored(uid: string, amount: real, category: string, kind: string, now: int,
                              parseDate: Json -> Option<int>, newId: string, iso: int -> string)
    requires amount != 0.0 && category != "" && kind != ""
    ensures var b := map["amount" := JNumber(amount), "category" := JString(category), "type" := JString(kind)];
      var r := HandlePost(Some(uid), Some(JObject(b)), now, parseDate, Some(newId), iso);
      r.response.status == 201 && r.write.Some? &&
      r.write.value.amount == Some(amount) && r.write.value.fields["type"] == JString(kind) &&
      r.write.value.fields["category"] == JString(category) && r.write.value.date == now
  {
    var b := map["amount" := JNumber(amount), "category" := JString(category), "type" := JString(kind)];
    assert HasRequired(JObject(b));
    assert !Truthy(Get(JObject(b), "date"));
  }

  /**
   * A created transaction, read back by GET, is listed exactly as the POST
   * answered it: same id, uid, amount, timestamps and copied fields.
   */
  lemma PostThenGet(newId: string, rec: NewRecord, uid: string, iso: int -> string)
    ensures ListItem(StoredOf(newId, rec), uid, iso) == Some(CreatedBody(newId, rec, uid, iso))
  {
    var a := ListItem(StoredOf(newId, rec), uid, iso).value;
    var b := CreatedBody(newId, rec, uid, iso);
    var d := StoredOf(newId, rec);
    assert a.Keys == b.Keys;
    forall k | k in a.Keys ensures a[k] == b[k] {
      if k in {"id", "userId", "date", "createdAt", "amount"} {
      } else {
        assert k in rec.fields;
        assert d.fields[k] == rec.fields[k];
      }
    }
    assert a == b;
  }
}
