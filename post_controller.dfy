/** The HTTP handlers of v1/post_controller.go, over the in-memory post repository. JSON
    decoding of the request body is an oracle: `None` when it fails. */
module PostController {
  import opened Base
  import opened Entities
  import opened Http
  import opened PostStore

  /** GET: writes the JSON of exactly what `FindAll` returns, with the default status 200. */
  method GetPosts(rw: ResponseWriter, repository: PostRepository)
    requires rw.IsFresh()
    modifies rw
    ensures rw.Status() == 200
    ensures rw.body == [Marshalled(PostArray(repository.posts))]
  {
    var posts := repository.FindAll();
    rw.Write(Marshalled(PostArray(posts)));
  }

  /** POST: a body that does not decode panics before the repository is touched and before
      anything is written; otherwise the decoded post is created once and the answer is 201
      with no body. */
  method CreatePost(rw: ResponseWriter, repository: PostRepository, decoded: Option<Post>) returns (panicked: bool)
    requires rw.IsFresh()
    modifies rw, repository
    ensures panicked <==> decoded.None?
    ensures decoded.None? ==> repository.posts == old(repository.posts) && rw.IsFresh()
    ensures decoded.Some? ==>
      repository.posts == old(repository.posts) + [decoded.value] && rw.Status() == 201 && rw.body == []
  {
    if decoded.None? {
      return true;
    }
    repository.Create(decoded.value);
    rw.WriteHeader(201);
    return false;
  }

  /** DELETE: always deletes every post and answers 204 with no body, whatever the query
      holds. */
  method DeletePost(rw: ResponseWriter, repository: PostRepository, query: map<string, seq<string>>)
    requires rw.IsFresh()
    modifies rw, repository
    ensures repository.posts == []
    ensures rw.Status() == 204 && rw.body == []
  {
    repository.DeleteAll();
    rw.WriteHeader(204);
  }
}
