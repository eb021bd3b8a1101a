/** How a reply turns into a result or an exception on its way up through CloudClient,
    container_db_ops and ContainerService. The class of the exception decides which `except` clause
    of a handler runs, so the classes are kept apart. */
module ErrorLayers {
  import opened Prelude
  import opened Platform

  datatype Raised =
    | HttpError(code: nat, message: string)
    | CloudError(code: nat, message: string)
    | ValueError(message: string)
    | OtherError(message: string)

  /** CloudClient._request: any status of 400 or more is a CloudClientError with that status, a
      transport failure one with status 0; a body that is not JSON escapes as a decoding error. */
  function Request(reply: Reply): Result<View, Raised> {
    match reply
    case Accepted(view) => Ok(view)
    case Rejected(code, message) => Err(CloudError(code, message))
    case NoAnswer(message) => Err(CloudError(0, message))
    case Unreadable(message) => Err(ValueError(message))
  }

  /** get_container, update_container, delete_container: a 404 is an ordinary "not there". */
  function Found(reply: Reply): Result<Option<View>, Raised> {
    match Request(reply)
    case Ok(view) => Ok(Some(view))
    case Err(CloudError(code, message)) => if code == 404 then Ok(None) else Err(CloudError(code, message))
    case Err(e) => Err(e)
  }

  /** container_db_ops re-raises a CloudClientError as a plain Exception. */
  function Flatten(e: Raised): Raised {
    if e.CloudError? then OtherError(e.message) else e
  }

  /** get_container_by_id */
  function DbGet(reply: Reply): Result<Option<Row>, Raised> {
    match Found(reply)
    case Ok(Some(RowView(row))) => Ok(Some(row))
    case Ok(_) => Ok(None)
    case Err(e) => Err(Flatten(e))
  }

  /** update_container_fields: writing to a missing row succeeds with nothing. */
  function DbUpdate(reply: Reply): Result<Option<View>, Raised> {
    match Found(reply)
    case Ok(found) => Ok(found)
    case Err(e) => Err(Flatten(e))
  }

  /** delete_container: a missing row is a ValueError. */
  function DbDelete(reply: Reply): Result<(), Raised> {
    match Found(reply)
    case Ok(Some(_)) => Ok(())
    case Ok(None) => Err(ValueError("not found"))
    case Err(e) => Err(Flatten(e))
  }

  /** ContainerService.delete_container_in_db: ValueError becomes 404, anything else 500. */
  function ServiceDelete(reply: Reply): Result<(), Raised> {
    match DbDelete(reply)
    case Ok(_) => Ok(())
    case Err(ValueError(message)) => Err(HttpError(404, message))
    case Err(e) => Err(HttpError(500, e.message))
  }

  /** ContainerService.create_container_in_db and update_container: every exception becomes 500. */
  function ServiceWrite(reply: Reply): Result<Option<View>, Raised> {
    match Request(reply)
    case Ok(view) => Ok(Some(view))
    case Err(e) => Err(HttpError(500, e.message))
  }

  function ServiceUpdate(reply: Reply): Result<Option<View>, Raised> {
    match DbUpdate(reply)
    case Ok(found) => Ok(found)
    case Err(e) => Err(HttpError(500, e.message))
  }

  /** create_container_in_k8s, delete_container_in_k8s and save_container_in_k8s wrap every failure
      of the container-maker call in HTTPException(500). */
  function ServiceGrpc(reply: Reply): Result<View, Raised> {
    match Request(reply)
    case Ok(view) => Ok(view)
    case Err(e) => Err(HttpError(500, e.message))
  }

  /** get_image: the catalog read happens outside that wrapping and raises a plain Exception. */
  function ImageRead(reply: Reply): Result<View, Raised> {
    match Request(reply)
    case Ok(view) => Ok(view)
    case Err(e) => Err(OtherError(e.message))
  }
}
