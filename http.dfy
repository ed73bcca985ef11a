/** The part of net/http the handlers rely on: a response writer that records the status line
    and the body chunks written to it. */
module Http {
  import opened Base
  import opened Entities

  /** A value handed to the JSON encoder. `Null` is what a nil slice or nil pointer encodes to. */
  datatype JsonValue =
    | Null
    | NamedTagListArray(lists: seq<NamedTagList>)
    | NamedTagListObject(list: NamedTagList)
    | PostArray(posts: seq<Post>)

  /** One call of `Write` on the response: the bytes of `json.Marshal`, the bytes of
      `json.Encoder.Encode` (the value followed by a newline), or plain text. */
  datatype Payload =
    | Marshalled(value: JsonValue)
    | Encoded(value: JsonValue)
    | Text(text: string)

  /** A nil slice marshals to `null`, any other slice to an array. */
  function ListsJson(lists: Option<seq<NamedTagList>>): JsonValue
  {
    match lists
    case None => Null
    case Some(l) => NamedTagListArray(l)
  }

  /** A nil pointer encodes to `null`, any other pointer to the object it points to. */
  function RecordJson(record: Option<NamedTagList>): JsonValue
  {
    match record
    case None => Null
    case Some(r) => NamedTagListObject(r)
  }

  /** The response of one request. `header` is the status code once a header has been sent;
      as in net/http, only the first `WriteHeader` takes effect, and a `Write` before any
      `WriteHeader` sends status 200. */
  class ResponseWriter {
    var header: Option<int>
    var body: seq<Payload>

    constructor ()
      ensures header == None && body == []
    {
      header := None;
      body := [];
    }

    /** The state the server hands to a handler: nothing sent yet. */
    predicate IsFresh()
      reads this
    {
      header.None? && body == []
    }

    /** The status the client sees: the header sent, or 200 when the handler sent none. */
    function Status(): int
      reads this
    {
      if header.Some? then header.value else 200
    }

    method WriteHeader(code: int)
      modifies this
      ensures header == if old(header).None? then Some(code) else old(header)
      ensures body == old(body)
    {
      if header.None? {
        header := Some(code);
      }
    }

    method Write(p: Payload)
      modifies this
      ensures header == if old(header).None? then Some(200) else old(header)
      ensures body == old(body) + [p]
    {
      if header.None? {
        header := Some(200);
      }
      body := body + [p];
    }
  }
}
