/** What the components exchange with the backend, reduced to values.
    A request is described, never performed: every handler returns the
    requests it issued, and takes the outcome of each awaited call as an input. */
module Net {

  datatype Option<+T> = None | Some(value: T)

  /** The settled outcome of one request: the body it resolved with, or a rejection. */
  datatype Response<+T> = Ok(body: T) | Failed

  /** A file picked in an `<input type="file">`; only its identity matters here. */
  datatype File = File(name: string)

  /** A collection endpoint, or one record under it (`${API}/${id}`). */
  datatype Target = Collection(path: string) | Record(path: string, id: int)

  /** The text fields appended to a `FormData` (or sent as JSON), and the image when one is attached. */
  datatype Body = Body(fields: seq<(string, string)>, image: Option<File>)

  datatype Request =
    | Get(target: Target)
    | Post(target: Target, body: Body)
    | Put(target: Target, body: Body)
    | Delete(target: Target)
}
