/** The data model of a sticker pack: emotion tags, the plan the planner
    produces for each sticker, and the record the app tracks per sticker. */
module Types {

  datatype Option<+T> = None | Some(value: T)

  /** The closed set of sixteen emotion tags. */
  datatype Emotion =
    | Hi | Thanks | Received | Bye
    | Confused | Happy | Crying | Angry
    | Fighting | GoodNight | Slacking | Shocked
    | Awkward | Love | OK | Speechless

  /** An image as the app passes it around: a data URL string. */
  type Image = string

  /** The bytes of a file prepared for the archive. */
  type Blob = seq<bv8>

  /** One planned sticker: its id, its emotion, the prompt for the image
      generator and the caption drawn onto the image. */
  datatype StickerPlan = StickerPlan(id: int, emotion: Emotion, visualPrompt: string, caption: string)

  /** Where a sticker stands in its lifecycle. */
  datatype Status = Pending | Generating | Processing | Complete | Error

  /** A plan extended with its status and the optional images produced so far. */
  datatype StickerData = StickerData(
    id: int,
    emotion: Emotion,
    visualPrompt: string,
    caption: string,
    status: Status,
    rawImageUrl: Option<Image>,
    processedImageUrl: Option<Image>,
    finalBlob: Option<Blob>)

  /** Outline parameters of the image processor. */
  datatype ProcessingOptions = ProcessingOptions(strokeWidth: real, strokeColor: string)

  /** The plan fields every record carries. */
  function PlanOf(s: StickerData): StickerPlan
  {
    StickerPlan(s.id, s.emotion, s.visualPrompt, s.caption)
  }

  /** The record seeded from a plan: its fields and the pending status. */
  function Seeded(p: StickerPlan): (s: StickerData)
    ensures PlanOf(s) == p
    ensures s.status == Pending
    ensures s.rawImageUrl.None? && s.processedImageUrl.None? && s.finalBlob.None?
  {
    StickerData(p.id, p.emotion, p.visualPrompt, p.caption, Pending, None, None, None)
  }
}
