/** What an Express handler sends back. */
module Http {
  /**
   * A JSON body with its status, an error message with its status, or no
   * response at all (the handler's promise rejects before it answers).
   */
  datatype Response<+T> = Reply(status: int, body: T) | Refuse(status: int, message: string) | NoReply
}
