/** What an Express handler sends back: a status code and a JSON body whose optional `success`
    flag, optional `message` and optional payload are modelled as fields. */
module Http {
  import opened Common

  datatype Reply<T> = Reply(status: int, success: Option<bool>, message: Option<string>, data: Option<T>)

  /** A reply carrying only a message and no data, as the error branches and some success
      branches send. */
  function Message<T>(status: int, success: Option<bool>, message: string): Reply<T>
  {
    Reply(status, success, Some(message), None)
  }

  /** The message Node.js puts in the `TypeError` thrown when a property is read from `null`. */
  function NullPropertyMessage(property: string): string
  {
    "Cannot read properties of null (reading '" + property + "')"
  }
}
