/** The error variants the client's code raises. `Server(status, body)`
    stands for `ParseError::from_response(status, body)`: the table that
    turns a protocol code into a variant is not part of this model, so the
    variant records exactly the two inputs the client hands to it. */
module Errors {
  import opened Json

  datatype ParseError =
    | MasterKeyRequired(message: string)
    | SessionTokenMissing
    | InvalidInput(message: string)
    | UnexpectedResponse(response: Json)
    | SdkError(message: string)
    /** `ParseError::JsonError`: a JSON (de)serialisation failure inside `_request`. */
    | JsonError
    /** `ParseError::JsonDeserializationFailed`: carries the body text its
        message embeds. */
    | JsonDeserializationFailed(bodyText: string)
    /** A URL that `Url::parse` refuses. */
    | InvalidUrl
    /** `ParseError::ReqwestError`: the exchange itself failed. */
    | Transport
    | Server(status: int, body: Json)
}
