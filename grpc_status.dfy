// The part of gRPC's status package the microservice uses: a call either
// succeeds or fails with a code and a message.
module GrpcStatus {

  datatype Code = Unauthenticated | Unknown

  datatype Status = OK | Error(code: Code, message: string)
}
