/** The two records the service stores and returns. */
module Entities {

  /** A named tag list as the JSON representation shows it: identifier, name and ordered tags.
      The bucket it is stored under is not part of it. */
  datatype NamedTagList = NamedTagList(id: string, name: string, tags: seq<string>)

  /** The earlier "post" resource: an identifier, an image URI and ordered tags. */
  datatype Post = Post(id: string, imageUri: string, tags: seq<string>)
}
