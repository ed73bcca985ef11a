/** The request router of v1/router.go: every request gets a fresh ServeMux holding the
    patterns for its method, so dispatch is a function of (method, path) alone. Patterns
    match the path exactly. */
module Router {
  import opened Http

  datatype Handler = GetNamedTagLists | CreateNamedTagList | DeleteNamedTagLists | Version | NotFound

  const NamedTagListsPath := "/namedTagLists"
  const VersionPath := "/version"
  const NotFoundBody := "404 page not found\n"

  /** The patterns `ServeHTTP` registers on the fresh mux for a request method. */
  function Registrations(verb: string): (m: map<string, Handler>)
    ensures forall p :: p in m ==> p == NamedTagListsPath || p == VersionPath
    ensures VersionPath in m <==> verb == "GET"
    ensures NamedTagListsPath in m <==> verb == "GET" || verb == "POST" || verb == "DELETE"
  {
    if verb == "GET" then map[NamedTagListsPath := GetNamedTagLists, VersionPath := Version]
    else if verb == "POST" then map[NamedTagListsPath := CreateNamedTagList]
    else if verb == "DELETE" then map[NamedTagListsPath := DeleteNamedTagLists]
    else map[]
  }

  /** The handler the mux picks: the named-tag-list handler for GET, POST and DELETE on
      /namedTagLists, the version handler for GET /version, and not-found for everything else
      (any other method, PUT included, and any other path). */
  function Route(verb: string, path: string): (h: Handler)
    ensures h == GetNamedTagLists <==> verb == "GET" && path == NamedTagListsPath
    ensures h == CreateNamedTagList <==> verb == "POST" && path == NamedTagListsPath
    ensures h == DeleteNamedTagLists <==> verb == "DELETE" && path == NamedTagListsPath
    ensures h == Version <==> verb == "GET" && path == VersionPath
    ensures h == NotFound <==>
      !((verb == "GET" || verb == "POST" || verb == "DELETE") && path == NamedTagListsPath)
      && !(verb == "GET" && path == VersionPath)
  {
    var mux := Registrations(verb);
    if path in mux then mux[path] else NotFound
  }

  /** `ServeHTTP`: picks the handler; when none matches it answers 404 with the mux's
      plain-text body itself, otherwise it leaves the response to the chosen handler. */
  method ServeHTTP(rw: ResponseWriter, verb: string, path: string) returns (h: Handler)
    requires rw.IsFresh()
    modifies rw
    ensures h == Route(verb, path)
    ensures h == NotFound ==> rw.Status() == 404 && rw.body == [Text(NotFoundBody)]
    ensures h != NotFound ==> rw.IsFresh()
  {
    var mux := Registrations(verb);
    if path in mux {
      h := mux[path];
    } else {
      h := NotFound;
      rw.WriteHeader(404);
      rw.Write(Text(NotFoundBody));
    }
  }
}
