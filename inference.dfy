/**
 * The language model every analyzer asks. Each analyzer sends the same kind of
 * request (a fixed system prompt for its stage and the metadata as JSON), so the
 * model is an oracle from the metadata and the stage to a reply: the text the
 * model answered with, or a failure (the service unreachable, the call raising).
 */
module Inference {

  /** The audio file's metadata, as JSON.stringify renders it into the prompt. */
  datatype AudioMetadata = AudioMetadata(json: string)

  /** The five attributes an analysis asks about, one prompt each. */
  datatype Stage = Genre | Mood | Tempo | Key | TimeSignature

  datatype Reply = Answered(content: string) | Unavailable

  /** What the model replies when asked about one stage of one file. */
  type Oracle = (AudioMetadata, Stage) -> Reply
}
