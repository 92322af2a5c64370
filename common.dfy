/** Shared vocabulary of the task views: optional values, database identities
    and the reply a view produces. */
module Common {

  datatype Option<+T> = None | Some(value: T)

  /** The identity of a database row (a user, a charity or a benefactor).
      The views only ever compare identities for equality, so an identity is
      kept abstract: two rows are "the same" exactly when their Refs are equal. */
  type Ref = nat

  /** A benefactor profile, as far as the views look at it: its own primary key
      and the user that owns it. */
  datatype BenefactorProfile = BenefactorProfile(id: nat, user: Ref)

  /** What a view hands back: an HTTP status code, or the AttributeError that
      escapes the view when it dereferences a missing benefactor. */
  datatype Reply = Http(code: int) | AttributeError

  const HTTP_200_OK := 200
  const HTTP_201_CREATED := 201
  const HTTP_400_BAD_REQUEST := 400
  const HTTP_403_FORBIDDEN := 403
  const HTTP_404_NOT_FOUND := 404
}
