/** Every way a day-values call can fail, one constructor per error the client returns. */
module Errors {

  newtype byte = b: int | 0 <= b < 256

  datatype Error =
    | InvalidArgument             // the date range was rejected before any request was built
    | TransportFailed             // the doer returned an error
    | ShortBody                   // fewer than three bytes could be peeked
    | ErrorResponse(body: seq<byte>) // the body starts with the ERR marker; carries the whole body
    | InvalidStatus(code: int)    // no marker, but the status code is not 200
    | JsonFailed                  // the JSON decoder rejected the bytes
    | InvalidDeviceMap            // a date entry of the body is not an object
    | InvalidValueMap             // a device entry of the body is not an object
    | NonStringValue              // a channel reading is not a string (a failed type assertion)
    | UnknownDevice               // a reading names a device absent from the active directory
}
