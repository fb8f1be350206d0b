/** Optional values, standing in for the source's `T | null` and optional fields. */
module Wrappers {

  datatype Option<+T> = None | Some(value: T)
}

/** The HTTP exceptions the core throws (NestJS exception classes), and the
    result of an operation that either returns a value or throws one of them. */
module Http {

  datatype HttpError =
    | Forbidden       // ForbiddenException, 403
    | Unauthorized    // UnauthorizedException, 401
    | NotFound        // NotFoundException, 404
    | InternalError   // an uncaught TypeError, answered with 500

  datatype Outcome<+T> = Ok(value: T) | Fail(error: HttpError)
}

/** The principal record as the user store keeps it. */
module Users {

  /** Prisma's `UserRole` enumeration. */
  datatype Role = USER | ADMIN | DEV

  type Email = string

  datatype User = User(id: int, email: Email, role: Role, passwordHash: string)
}
