/** The reply shapes of the two remote services, as the orchestrator consumes them. */
module Replies {
  import opened Wrappers

  /** The AI teacher's reply; a missing `detectedChords` field reads as the empty list. */
  datatype AIResponse = AIResponse(
    response: string,
    detectedChords: seq<string>,
    audioUrl: Option<string>,
    fallback: bool)

  /** One finger dot placed on the camera image. */
  datatype ArPosition = ArPosition(
    x: int,
    y: int,
    finger: int,
    stringIndex: int,
    fret: int,
    confidence: real,
    fallback: bool)

  datatype Transform = Transform(centerX: int, centerY: int, angle: real, scale: real)

  /** The CV tracker's reply; a missing `chord_positions` field reads as the empty list. */
  datatype CVResponse = CVResponse(
    success: bool,
    guitarDetected: bool,
    chordPositions: seq<ArPosition>,
    transformation: Transform,
    fallback: bool)
}
