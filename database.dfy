/**
 * The two MongoDB collections the handlers use, each a class holding a map from object id to
 * document. The handlers change `docs` in place, as `insert_one`, `update_one`, `update_many`
 * and `delete_one` do.
 */
module Database {
  import opened Common
  import opened ObjectIds
  import opened Models

  /** Every key is the number of a 12-byte object id. */
  ghost predicate IdsInRange<D>(docs: map<ObjectId, D>)
  {
    forall id :: id in docs ==> id < Limit
  }

  /** `Database.db["news"]`. */
  class NewsCollection {
    var docs: map<ObjectId, Article>

    ghost predicate Valid()
      reads this
    {
      IdsInRange(docs)
    }

    constructor ()
      ensures Valid() && docs == map[]
    {
      docs := map[];
    }
  }

  /** `find_one({"email": email})` finds a document. */
  predicate EmailRegistered(docs: map<ObjectId, UserDoc>, email: string)
  {
    exists id :: id in docs && docs[id].email == email
  }

  /** No two users share an email: both inserting handlers refuse a registered email. */
  ghost predicate EmailsUnique(docs: map<ObjectId, UserDoc>)
  {
    forall a, b :: a in docs && b in docs && docs[a].email == docs[b].email ==> a == b
  }

  /** `Database.db["users"]`. */
  class UserCollection {
    var docs: map<ObjectId, UserDoc>

    ghost predicate Valid()
      reads this
    {
      IdsInRange(docs) && EmailsUnique(docs)
    }

    constructor ()
      ensures Valid() && docs == map[]
    {
      docs := map[];
    }
  }
}
