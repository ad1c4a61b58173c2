/**
 * The replies the panel's handlers send. A handler answers with a status code and a
 * JSON object holding either a "message" or an "error" string (app.go uses gin.H for both).
 */
module Http {
  const StatusOK := 200
  const StatusBadRequest := 400
  const StatusConflict := 409
  const StatusInternalServerError := 500

  /** The one key of the JSON object a handler returns. */
  datatype Body = Message(text: string) | Error(text: string)

  datatype Response = Response(status: int, body: Body)
}
