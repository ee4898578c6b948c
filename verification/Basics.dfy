/** Stock result types and the three kinds of rejection the services use. */
module Basics {

  datatype Option<+T> = None | Some(value: T)

  // The HTTP exceptions the services throw.
  datatype Error = NotFound | Conflict | BadRequest

  datatype Result<+T> = Ok(value: T) | Err(error: Error)
}
