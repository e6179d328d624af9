/** The records exchanged with the inference backend (src/types.ts). */
module Types {
  import opened Wrappers

  /** The connection indicator shown by the dashboard. */
  datatype Connection = Connected | Connecting | Disconnected

  /** One face match: its region, its distance (lower is closer) and the identity label. */
  datatype Prediction = Prediction(
    sourceX: int, sourceY: int, sourceW: int, sourceH: int,
    distance: real,
    identity: string)

  /** The four people counters of an `analytics` message or poll. */
  datatype Counters = Counters(totalEvents: int, unknown: int, verified: int, noFace: int)

  /** The `predictions` field of a `response`: absent, present with a value that is not
      an array (`null` included), or an array. */
  datatype PredictionsField = Missing | NotArray | Predictions(items: seq<Prediction>)

  /** A parsed inbound socket message, tagged by its `type` field. */
  datatype SocketMessage =
    | FrameMessage(imageBase64: string)
    | AnalyticsMessage(payload: Counters)
    | VerifiedMessage(users: seq<string>)
    | StatusMessage(connection: Connection)
    | ErrorMessage(message: string)
    | ResponseMessage(frame: string, threshold: real, predictions: PredictionsField)
}
