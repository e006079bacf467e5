/**
 RandomTextRepository: fetch from the provider, map the response to an entity,
 store it through the DAO; listing and deleting go straight to the DAO.

 Kotlin's `throw` out of a Unit-returning suspend function is modelled as an
 `Outcome`; `generateRandom` catches and returns a `Result<Unit>`.
 */
module Repository {
  import opened Models
  import opened Backoff
  import opened Provider
  import opened Dao

  class RandomTextRepository {
    const randomTextDao: RandomTextDao

    constructor (dao: RandomTextDao)
      ensures randomTextDao == dao
    {
      randomTextDao := dao;
    }

    /** `getAll()`: the DAO's listing, by id descending. */
    method GetAll() returns (list: seq<RandomText>)
      requires randomTextDao.Valid()
      ensures IsListing(list, randomTextDao.rows)
    {
      list := randomTextDao.GetAll();
    }

    /**
     `generateRandom(length)`: a row is inserted exactly when the fetch succeeded and
     the insert did not throw; it carries the response's value, length and created
     verbatim under a newly generated id, and nothing else in the table changes.
     Otherwise the table is untouched and the failure returned is the fetch's, or
     else the insert's.
     */
    method GenerateRandom(length: int, provider: (int, nat) -> ProviderRun,
                          parse: string -> Result<RandomTextResponse>, insertFault: Option<Throwable>)
      returns (result: Result<()>)
      requires randomTextDao.Valid()
      modifies randomTextDao
      ensures randomTextDao.Valid()
      ensures var fetched := FetchRun(length, provider, parse).result;
              && (result.Success? <==> fetched.Success? && insertFault.None?)
              && (fetched.Failure? ==> result == Failure(fetched.error))
              && (fetched.Success? && insertFault.Some? ==> result == Failure(insertFault.value))
      ensures result.Failure? ==>
                randomTextDao.rows == old(randomTextDao.rows)
                && randomTextDao.sequence == old(randomTextDao.sequence)
      ensures result.Success? ==>
                var text := FetchRun(length, provider, parse).result.value.randomText;
                var id := old(randomTextDao.sequence) + 1;
                && id !in old(randomTextDao.rows)
                && randomTextDao.sequence == id
                && randomTextDao.rows
                   == old(randomTextDao.rows)[id := RandomText(id, text.value, text.length, text.created)]
    {
      var response, calls, delays := FetchRandom(length, provider, parse);
      if response.Failure? {
        return Failure(response.error);
      }
      var text := response.value.randomText;
      var entity := RandomText(0, text.value, text.length, text.created);
      var outcome := randomTextDao.Insert(entity, insertFault);
      match outcome
      case Threw(e) => result := Failure(e);
      case Done => result := Success(());
    }

    /** `deleteAll()`: the DAO's deleteAll; its failure is rethrown as it is. */
    method DeleteAll(fault: Option<Throwable>) returns (outcome: Outcome)
      requires randomTextDao.Valid()
      modifies randomTextDao
      ensures randomTextDao.Valid() && randomTextDao.sequence == old(randomTextDao.sequence)
      ensures fault.Some? ==> outcome == Threw(fault.value) && randomTextDao.rows == old(randomTextDao.rows)
      ensures fault.None? ==> outcome == Done && randomTextDao.rows == map[]
    {
      outcome := randomTextDao.DeleteAll(fault);
    }

    /** `delete(text)`: the DAO's delete; its failure is rethrown as it is. */
    method Delete(text: RandomText, fault: Option<Throwable>) returns (outcome: Outcome)
      requires randomTextDao.Valid()
      modifies randomTextDao
      ensures randomTextDao.Valid() && randomTextDao.sequence == old(randomTextDao.sequence)
      ensures fault.Some? ==> outcome == Threw(fault.value) && randomTextDao.rows == old(randomTextDao.rows)
      ensures fault.None? ==> outcome == Done && randomTextDao.rows == old(randomTextDao.rows) - {text.id}
    {
      outcome := randomTextDao.Delete(text, fault);
    }
  }

  /** The repository's listing is exactly the DAO's listing of the same table. */
  method GetAllIsDaoListing(repo: RandomTextRepository) returns (fromRepo: seq<RandomText>, fromDao: seq<RandomText>)
    requires repo.randomTextDao.Valid()
    ensures fromRepo == fromDao
  {
    fromRepo := repo.GetAll();
    fromDao := repo.randomTextDao.GetAll();
    ListingUnique(fromRepo, fromDao, repo.randomTextDao.rows);
  }
}
