/** Value types shared by every part of the model: optional values, the outcome of a
    call into code the model does not see, and the errors the repository's own code throws. */
module Types {

  datatype Option<+T> = None | Some(value: T)

  /** What a call into a library or service (Clerk, Postgres, Pinecone, the LLM chain,
      Vercel Blob, fetch) came back with: a value, or an exception with its reason. */
  datatype Outcome<+T> = Returned(value: T) | Threw(reason: string)

  /** The exceptions the repository's own code raises, plus one that carries an
      exception coming out of a foreign call unchanged. */
  datatype Error =
    | UserNotFound
    | PdfUrlNotFound
    | Unauthorized
    | MetadataSaveFailed
    | Foreign(reason: string)
  {
    /** The text of the `Error` the source constructs. */
    function Message(): string {
      match this
      case UserNotFound => "User not found"
      case PdfUrlNotFound => "PDF URL not found in database"
      case Unauthorized => "Unauthorized"
      case MetadataSaveFailed => "Failed to save file metadata"
      case Foreign(reason) => reason
    }
  }

  /** The result of an async function of the repository: a value, or a thrown error. */
  datatype Result<+T> = Ok(value: T) | Err(error: Error)

  /** An awaited foreign call whose exception propagates unchanged. */
  function Lift<T>(o: Outcome<T>): (r: Result<T>)
    ensures r.Ok? <==> o.Returned?
    ensures r.Ok? ==> r.value == o.value
    ensures r.Err? ==> r.error == Foreign(o.reason)
  {
    match o
    case Returned(v) => Ok(v)
    case Threw(reason) => Err(Foreign(reason))
  }
}
