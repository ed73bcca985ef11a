/** The service layer of v1/named_tag_list_service.go. The UUID generator is an opaque
    collaborator: the value its single `Generate()` call returns is a parameter, and so is the
    error the repository's `Create` returns. */
module NamedTagListService {
  import opened Base
  import opened Entities

  /** Go's `(*NamedTagList, error)`. */
  datatype ServiceResult = ServiceResult(record: Option<NamedTagList>, err: Option<DbError>)

  /** A service call's result together with the collaborator calls it made: how often it
      asked the generator for an id, and the records it passed to the repository's `Create`. */
  datatype Creation = Creation(result: ServiceResult, generatorCalls: nat, repositoryCreates: seq<NamedTagList>)

  /** `Create(bucket, ntl)` is still a stub: no record, no error, and no collaborator call. */
  function Create(bucket: string, ntl: NamedTagList): (c: Creation)
    ensures c.result.record.None? && c.result.err.None?
    ensures c.generatorCalls == 0 && c.repositoryCreates == []
  {
    Creation(ServiceResult(None, None), 0, [])
  }

  /** `CreateOld(ntl)`: the returned record is the input with its id replaced by the
      generated one and its name and tags untouched; exactly that record is passed once to the
      repository, the generator is asked once, and the repository's error comes back
      unchanged beside the record. */
  function CreateOld(ntl: NamedTagList, generated: string, repositoryError: Option<DbError>): (c: Creation)
    ensures c.result.record.Some?
    ensures c.result.record.value.id == generated
    ensures c.result.record.value.name == ntl.name && c.result.record.value.tags == ntl.tags
    ensures c.generatorCalls == 1 && c.repositoryCreates == [c.result.record.value]
    ensures c.result.err == repositoryError
  {
    var stored := ntl.(id := generated);
    Creation(ServiceResult(Some(stored), repositoryError), 1, [stored])
  }

  /** Whatever id the caller supplies is overwritten: `CreateOld` does not depend on it. */
  lemma CreateOldIgnoresSuppliedId(ntl: NamedTagList, supplied: string, generated: string, repositoryError: Option<DbError>)
    ensures CreateOld(ntl.(id := supplied), generated, repositoryError) == CreateOld(ntl, generated, repositoryError)
  {
  }
}
