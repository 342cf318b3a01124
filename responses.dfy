/** The HTTP status and JSON body a handler answers with. */
module Responses {
  import opened Wrappers
  import opened Records

  datatype Body =
    | ErrorBody(error: string, details: Option<string>)  // `details: undefined` is dropped from the JSON
    | MessageBody(message: string)
    | HotelBody(id: HotelId, hotel: Hotel)
    | HotelListBody(entries: seq<(HotelId, Hotel)>)
    | ReplyBody(reply: Option<string>)                    // `reply: undefined` is dropped from the JSON

  datatype Response = Response(status: nat, body: Body)

  function ErrorResponse(status: nat, error: string): Response {
    Response(status, ErrorBody(error, None))
  }

  function MessageResponse(message: string): Response {
    Response(200, MessageBody(message))
  }

  const HotelNotFound := "Hotel not found"
}
