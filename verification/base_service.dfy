/** The service base class (src/services/baseService.js) and how the ticket
    and raffle services construct it. Its `findById` goes through
    `this.repository`, which a subclass is expected to have set. */
module BaseService {
  import opened Common
  import opened Repository

  /** A service object: `repository` is `None` while no subclass has set it. */
  class Service<B> {
    var repository: Option<Repository<B>>

    /** `constructor(dataManager, entityName)` as written: it stores the two
        arguments and leaves `repository` unset, so `super(ticketRepository)`
        in the ticket and raffle services does not wire the repository. */
    constructor AsWritten()
      ensures repository == None
    {
      repository := None;
    }

    /** The construction the subclasses evidently intend: `repository` is the
        repository they passed to `super`. */
    constructor Wired(repo: Repository<B>)
      ensures repository == Some(repo)
    {
      repository := Some(repo);
    }

    /** `findById(id)`. */
    method FindById(id: string) returns (r: Result<Row<B>>)
      ensures r == Lookup(if repository.Some? then Some(repository.value.items) else None, id)
    {
      var items := if repository.Some? then Some(repository.value.items) else None;
      r := Lookup(items, id);
    }
  }

  /** `findById` over the items of the repository, when there is one: it fails
      without a repository, fails with not-found on a missing id, and otherwise
      returns the first record with that id. */
  function Lookup<B>(items: Option<seq<Row<B>>>, id: string): (r: Result<Row<B>>)
    ensures items.None? ==> r == Err(RepositoryNotInitialized)
    ensures items.Some? ==> (r.Ok? <==> FindFirst(items.value, id).Some?)
    ensures items.Some? && r.Ok? ==> r.value == FindFirst(items.value, id).value
    ensures items.Some? && r.Err? ==> r.error == NotFound
  {
    match items
    case None => Err(RepositoryNotInitialized)
    case Some(rows) =>
      match FindFirst(rows, id)
      case None => Err(NotFound)
      case Some(row) => Ok(row)
  }

  /** As written, a service built by the ticket or raffle service's
      constructor finds nothing, not even a stored record: every operation
      that starts with `findById` (cancel, update, delete, status change,
      draw) fails before its own checks. */
  method AsWrittenFindsNothing<B>(items: seq<Row<B>>, i: int) returns (r: Result<Row<B>>)
    requires 0 <= i < |items|
    ensures r == Err(RepositoryNotInitialized)
  {
    var service := new Service<B>.AsWritten();
    r := service.FindById(items[i].id);
  }

  /** With the repository wired, the same lookup finds every stored record. */
  method WiredFindsStored<B>(items: seq<Row<B>>, i: int) returns (r: Result<Row<B>>)
    requires 0 <= i < |items|
    ensures r.Ok? && r.value.id == items[i].id
  {
    var repo := new Repository(items);
    var service := new Service<B>.Wired(repo);
    r := service.FindById(items[i].id);
  }
}
