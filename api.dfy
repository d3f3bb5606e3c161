/**
 * What every controller shares: document ids, the id arguments a request
 * carries, and the HTTP status a controller answers with.
 */
module Api {

  /** Document ids of the three stores and of users (MongoDB ObjectIds). */
  type FoodId = nat
  type UserId = nat
  type OrderId = nat

  /**
   * An id as a request supplies it: `Absent` when the value is falsy,
   * `Malformed` when it fails `mongoose.Types.ObjectId.isValid`, and
   * `Ref(id)` for the well-formed id it denotes.
   */
  datatype IdArg = Absent | Malformed | Ref(id: nat)

  /** The HTTP statuses the controllers of this backend answer with. */
  datatype Code = Ok | Created | BadRequest | NotFound | Conflict | ServerError
}
