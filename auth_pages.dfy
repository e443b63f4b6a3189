/**
 * `AuthPages`: the four HTML pages an authentication redirect can answer with.
 * The pinned source strings and copy-on-write borrows are plain strings here.
 */
module AuthPages {

  datatype AuthPagesSrc = AuthPagesSrc(late: string, invalid: string, internalError: string, success: string)

  /** Which of the four pages a redirect handler answers with. */
  datatype PageKind = Late | Invalid | InternalError | Success

  class AuthPages {
    var late: string
    var invalid: string
    var internalError: string
    var success: string

    /** `AuthPages::new(src)`: each page starts as the matching field of `src`. */
    constructor (src: AuthPagesSrc)
      ensures BorrowLate() == src.late && BorrowInvalid() == src.invalid
      ensures BorrowInternalError() == src.internalError && BorrowSuccess() == src.success
    {
      late := src.late;
      invalid := src.invalid;
      internalError := src.internalError;
      success := src.success;
    }

    function BorrowLate(): string reads this { late }
    function BorrowInvalid(): string reads this { invalid }
    function BorrowInternalError(): string reads this { internalError }
    function BorrowSuccess(): string reads this { success }

    /** The page a handler returns for `kind` (`pages.late.into_owned()` and so on). */
    function Page(kind: PageKind): (p: string)
      reads this
    {
      match kind
      case Late => late
      case Invalid => invalid
      case InternalError => internalError
      case Success => success
    }

    method SetLate(v: string)
      modifies this
      ensures BorrowLate() == v
      ensures invalid == old(invalid) && internalError == old(internalError) && success == old(success)
    {
      late := v;
    }

    method SetInvalid(v: string)
      modifies this
      ensures BorrowInvalid() == v
      ensures late == old(late) && internalError == old(internalError) && success == old(success)
    {
      invalid := v;
    }

    method SetInternalError(v: string)
      modifies this
      ensures BorrowInternalError() == v
      ensures late == old(late) && invalid == old(invalid) && success == old(success)
    {
      internalError := v;
    }

    method SetSuccess(v: string)
      modifies this
      ensures BorrowSuccess() == v
      ensures late == old(late) && invalid == old(invalid) && internalError == old(internalError)
    {
      success := v;
    }

    /** The derived `Clone`: a new record holding the current four pages. */
    method Clone() returns (c: AuthPages)
      ensures fresh(c)
      ensures c.late == late && c.invalid == invalid && c.internalError == internalError && c.success == success
    {
      c := new AuthPages(AuthPagesSrc(late, invalid, internalError, success));
    }
  }
}
