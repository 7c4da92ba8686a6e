/**
 * Go `error` values as far as the front end distinguishes them: a
 * `packages.Error` carries a position string ("file:line:col") that the
 * diagnostic filter inspects; every other error is opaque apart from its text.
 */
module GoErrors {

  datatype Error =
    | PackageError(pos: string, msg: string)
    | OtherError(msg: string)
}
