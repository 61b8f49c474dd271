/**
 * Values shared by the screens: an optional value, and the abstract outcomes
 * of the two backend calls every persisting screen makes in turn (look up the
 * signed-in user, then update one column of that user's profile row).
 */
module Outcomes {

  datatype Option<+T> = None | Some(value: T)

  datatype Result<+T, +E> = Success(value: T) | Failure(error: E)

  type UserId = string

  /** What `auth.getUser()` yields: a user, or an auth error / no user at all. */
  datatype AuthOutcome = SignedIn(user: UserId) | AuthFailed

  /** What an `update(...).eq('user_id', ...)` on `user_profiles` yields. */
  datatype WriteOutcome = WriteOk | WriteFailed

  /** The update a screen sends: the user's row, the column, the new value. */
  datatype Update<T> = Update(userId: UserId, column: string, value: T)

  /** The update a persisting screen sends: none at all unless a user is signed in. */
  function Sent<T>(auth: AuthOutcome, column: string, value: T): Option<Update<T>>
  {
    if auth.SignedIn? then Some(Update(auth.user, column, value)) else None
  }

  /** A persisting screen's save succeeds when the user is found and the update is accepted. */
  predicate Saved(auth: AuthOutcome, write: WriteOutcome)
  {
    auth.SignedIn? && write.WriteOk?
  }
}
