/** The API server's error values and their wire form.

    ServerError turns a server-side error into the params.Error sent to a
    client, recording its kind in a code; RestoreError turns it back on the
    client side. The apiserver/common package that defines them is not part
    of this model: this module keeps only the three kinds of error the
    modelled code tells apart, and the promise that the code preserves the
    kind. */
module ApiErrors {

  /** ErrPerm is the permission-denied error; NotFound is any error that
      errors.IsNotFound accepts; OtherError is every other error. */
  datatype Error = ErrPerm | NotFound(message: string) | OtherError(message: string)

  predicate IsNotFound(e: Error)
  {
    e.NotFound?
  }

  /** An error as carried in an API result. */
  datatype ParamsError = ParamsError(message: string, code: string)

  const CodeUnauthorized := "unauthorized access"
  const CodeNotFound := "not found"
  const PermissionDenied := "permission denied"

  function ServerError(e: Error): (p: ParamsError)
    ensures p.code == CodeNotFound <==> e.NotFound?
    ensures p.code == CodeUnauthorized <==> e.ErrPerm?
    ensures p.code == "" <==> e.OtherError?
    ensures RestoreError(p) == e
  {
    match e
    case ErrPerm => ParamsError(PermissionDenied, CodeUnauthorized)
    case NotFound(m) => ParamsError(m, CodeNotFound)
    case OtherError(m) => ParamsError(m, "")
  }

  function RestoreError(p: ParamsError): Error
  {
    if p.code == CodeUnauthorized then ErrPerm
    else if p.code == CodeNotFound then NotFound(p.message)
    else OtherError(p.message)
  }

  /** The forms ServerError produces. */
  predicate Canonical(p: ParamsError)
  {
    || (p.code == CodeUnauthorized && p.message == PermissionDenied)
    || p.code == CodeNotFound
    || p.code == ""
  }

  /** ServerError and RestoreError are inverse on errors and on the forms
      ServerError produces. */
  lemma ServerErrorRoundTrip(e: Error, p: ParamsError)
    ensures RestoreError(ServerError(e)) == e
    ensures Canonical(ServerError(e))
    ensures Canonical(p) ==> ServerError(RestoreError(p)) == p
  {
  }
}
