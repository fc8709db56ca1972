/** What the Express middlewares read and write: the request's `Authorization` header and
    `req.userAuth`, the environment, and how a middleware ends. */
module Http {
  import opened Js
  import opened Mongo
  import opened UserModel
  import opened ErrorHandler

  /** The `process.env` variables the middlewares read. */
  datatype Env = Env(jwtSecretKey: Option<string>, jwtKey: Option<string>, nodeEnv: Option<string>)

  /** `req.userAuth` as a later handler reads it: `id` (the string id), `_id` (the ObjectId of a
      full user document), `email`, `role`, and `isVerified` when it was attached. */
  datatype AuthCtx = AuthCtx(id: Option<Id>, underscoreId: Option<Id>, email: string, role: Role, isVerified: Option<bool>)

  /** How a middleware ends: `next()` (having set `req.userAuth` to `userAuth` when that is
      Some), a response it sent, `next(err)`, or nothing at all (a rejected promise no one handles). */
  datatype GateResult =
    | Next(userAuth: Option<AuthCtx>)
    | Reject(code: int, status: string, message: string)
    | Forward(err: AppError)
    | NoResponse

  /** The part of an Express request the middlewares touch. */
  class Request {
    var authorization: Option<string>
    var userAuth: Option<AuthCtx>

    constructor (authorization: Option<string>)
      ensures this.authorization == authorization && userAuth.None?
    {
      this.authorization := authorization;
      userAuth := None;
    }

    /** Apply what a middleware decided to `req.userAuth`. */
    method Attach(r: GateResult)
      modifies this`userAuth
      ensures userAuth == if r.Next? && r.userAuth.Some? then r.userAuth else old(userAuth)
    {
      if r.Next? && r.userAuth.Some? {
        userAuth := r.userAuth;
      }
    }
  }
}
