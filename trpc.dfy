/** The errors a tRPC procedure raises: a code and a message. */
module Trpc {
  datatype ErrorCode = BadRequest | NotFound | Forbidden | Conflict | InternalServerError

  datatype TrpcError = TrpcError(code: ErrorCode, message: string)
}
