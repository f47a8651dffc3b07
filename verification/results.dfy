/** Failure-compatible wrappers and the error taxonomy of the draw engine.
    Every `throw` of the engine becomes a `Failure` carrying one of the
    `Error` constructors below, and so do the runtime errors the model
    covers: an empty draw, an unreadable image entry, and a sub-type lookup
    that yields something other than a list. */
module Results {

  datatype Option<+T> = None | Some(value: T)

  datatype Result<+T, +E> = Success(value: T) | Failure(error: E) {

    predicate IsFailure() {
      Failure?
    }

    function PropagateFailure<U>(): Result<U, E>
      requires Failure?
    {
      Failure(error)
    }

    function Extract(): T
      requires Success?
    {
      value
    }
  }

  /** Why a divination request fails. */
  datatype Error =
    | ResourceUnreadable
      // listing the resource root throws inside pick_theme
    | NoSubTypes(theme: string)
      // the resolved sub-type list is empty
    | SubTypesNotAList(theme: string)
      // the lookup yielded an inherited member, so `subTypes.includes` throws
    | NoCardDrawn
      // the draw came back empty, so destructuring its first card throws
    | IncompleteCard
      // one of the five required card fields is missing or empty
    | ImageDirUnreadable(theme: string, subType: string)
      // listing resource/<theme>/<type> throws
    | ImageNotFound(theme: string, subType: string, pic: string)
      // no file of that directory starts with `<pic>.`
    | ImageUnreadable(file: string)
      // the matched entry cannot be read as a file
}
