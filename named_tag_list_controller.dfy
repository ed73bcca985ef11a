/** The HTTP handlers of v1/named_tag_list_controller.go. Each handler is a method over the
    response writer and the outcome of the repository or service call it makes; the call it
    makes is returned so that callers can see which one was chosen. JSON decoding is an
    oracle: the body is malformed, is the literal `null`, or decodes to a record. */
module NamedTagListController {
  import opened Base
  import opened Entities
  import opened Http
  import opened NamedTagListService

  datatype Decoded<T> = Malformed | JsonNull | Value(value: T)

  /** The repository call `DeleteNamedTagLists` makes. As written, `DeleteAll` takes no
      buckets. */
  datatype DeleteCall = DeleteByIdsCall(ids: seq<string>) | DeleteAllCall

  /** A parsed query string (Go's url.Values). */
  type Query = map<string, seq<string>>

  /** `query[key]`: the values given for `key`, none when the key is absent. */
  function Values(query: Query, key: string): seq<string>
  {
    if key in query then query[key] else []
  }

  /** With at least one `id` value the handler deletes by exactly those ids; otherwise it
      deletes all. */
  function DeleteCallFor(query: Query): (c: DeleteCall)
    ensures c.DeleteByIdsCall? <==> "id" in query && |query["id"]| > 0
    ensures c.DeleteByIdsCall? ==> c.ids == query["id"]
  {
    var ids := Values(query, "id");
    if |ids| > 0 then DeleteByIdsCall(ids) else DeleteAllCall
  }

  /** GET: calls `FindAll()`; a repository error gives status 500, success the default 200.
      Either way the body is the JSON of the list the repository returned (`null` for none). */
  method GetNamedTagLists(rw: ResponseWriter, found: Option<seq<NamedTagList>>, err: Option<DbError>)
    requires rw.IsFresh()
    modifies rw
    ensures rw.Status() == if err.Some? then 500 else 200
    ensures rw.body == [Marshalled(ListsJson(found))]
  {
    if err.Some? {
      rw.WriteHeader(500);
    }
    rw.Write(Marshalled(ListsJson(found)));
  }

  /** POST: a body that does not decode gives 400 without calling the service; a `null` body
      dereferences a nil pointer and panics before the call; otherwise the decoded record is
      passed to the service once, and its error gives 500 with no body, its success 201 with
      the returned record encoded. */
  method CreateNamedTagList(rw: ResponseWriter, decoded: Decoded<NamedTagList>, reply: ServiceResult)
    returns (serviceCall: Option<NamedTagList>, panicked: bool)
    requires rw.IsFresh()
    modifies rw
    ensures panicked <==> decoded.JsonNull?
    ensures serviceCall == if decoded.Value? then Some(decoded.value) else None
    ensures decoded.Malformed? ==> rw.Status() == 400 && rw.body == []
    ensures decoded.JsonNull? ==> rw.IsFresh()
    ensures decoded.Value? && reply.err.Some? ==> rw.Status() == 500 && rw.body == []
    ensures decoded.Value? && reply.err.None? ==>
      rw.Status() == 201 && rw.body == [Encoded(RecordJson(reply.record))]
  {
    serviceCall, panicked := None, false;
    match decoded
    case Malformed =>
      rw.WriteHeader(400);
    case JsonNull =>
      panicked := true;
    case Value(ntl) =>
      serviceCall := Some(ntl);
      if reply.err.Some? {
        rw.WriteHeader(500);
      } else {
        rw.WriteHeader(201);
        rw.Write(Encoded(RecordJson(reply.record)));
      }
  }

  /** DELETE: deletes by the `id` values when there are any and deletes all otherwise; the
      chosen call's error gives 500, its success 204; no body either way. */
  method DeleteNamedTagLists(rw: ResponseWriter, query: Query, err: Option<DbError>) returns (call: DeleteCall)
    requires rw.IsFresh()
    modifies rw
    ensures call == DeleteCallFor(query)
    ensures rw.Status() == if err.Some? then 500 else 204
    ensures rw.body == []
  {
    var ids := Values(query, "id");
    if |ids| > 0 {
      call := DeleteByIdsCall(ids);
    } else {
      call := DeleteAllCall;
    }
    if err.Some? {
      rw.WriteHeader(500);
    } else {
      rw.WriteHeader(204);
    }
  }

  /** A service that creates through `CreateOld` answers a decoded POST with 201 and the
      record carrying the generated id, or with 500 and no body when the repository fails. */
  method CreateThroughService(ntl: NamedTagList, generated: string, repositoryError: Option<DbError>)
    returns (status: int, body: seq<Payload>)
    ensures repositoryError.Some? ==> status == 500 && body == []
    ensures repositoryError.None? ==>
      status == 201 && body == [Encoded(NamedTagListObject(ntl.(id := generated)))]
  {
    var rw := new ResponseWriter();
    var creation := CreateOld(ntl, generated, repositoryError);
    var _, _ := CreateNamedTagList(rw, Value(ntl), creation.result);
    status, body := rw.Status(), rw.body;
  }
}
