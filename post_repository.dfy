/** The in-memory post repository of v1/post_repository.go: a slice of posts that `Create`
    appends to and `DeleteAll` replaces with an empty one. */
module PostStore {
  import opened Entities

  class PostRepository {
    var posts: seq<Post>

    /** `NewPostRepository()`: a repository holding no posts. */
    constructor ()
      ensures posts == []
    {
      posts := [];
    }

    /** The posts held, in creation order; nothing changes. */
    method FindAll() returns (r: seq<Post>)
      ensures r == posts
    {
      r := posts;
    }

    /** Appends the post; earlier posts and their order stay as they were. */
    method Create(post: Post)
      modifies this
      ensures posts == old(posts) + [post]
    {
      posts := posts + [post];
    }

    /** Empties the repository, whatever it held, so a second call changes nothing more. */
    method DeleteAll()
      modifies this
      ensures posts == []
    {
      posts := [];
    }
  }

  /** A fresh repository; two posts created and listed come back as given and in creation
      order, tags included; after deleting all, twice, the list is empty. */
  method PostLifecycle(first: Post, second: Post) returns (listed: seq<Post>, afterDelete: seq<Post>)
    ensures listed == [first, second]
    ensures afterDelete == []
  {
    var repository := new PostRepository();
    repository.Create(first);
    repository.Create(second);
    listed := repository.FindAll();
    repository.DeleteAll();
    repository.DeleteAll();
    afterDelete := repository.FindAll();
  }
}
