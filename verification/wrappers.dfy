/** Small datatypes shared by the frontend and backend modules. */
module Wrappers {

  /** A value that may be absent: an empty form field, a NaN number, a missing key. */
  datatype Option<+T> = None | Some(value: T) {
    function GetOr(default: T): T {
      match this
      case Some(v) => v
      case None => default
    }
  }

  /**
   * What a `fetch(...).then(r => r.json())` call hands to the frontend:
   * the request or the JSON parse failed (`catch`), the body parsed to
   * something that is not an array, or it parsed to an array.
   */
  datatype Response<T> = Failed | NotArray | Array(elems: seq<T>)

  /** `Array.isArray(data) ? data : []` */
  function ListOrEmpty<T>(r: Response<T>): seq<T> {
    if r.Array? then r.elems else []
  }
}
