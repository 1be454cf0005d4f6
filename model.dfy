/** The records of `src/model.ts`, with the `moment` value of a media file
    replaced by a calendar date. */
module Model {

  datatype Option<+T> = None | Some(value: T)

  datatype Result<+T, +E> = Ok(value: T) | Err(error: E)

  /** A calendar date in the local time zone, the part of a `moment` the
      exporter formats. */
  datatype Date = Date(year: nat, month: nat, day: nat)

  predicate ValidDate(d: Date)
  {
    d.year <= 9999 && 1 <= d.month <= 12 && 1 <= d.day <= 31
  }

  type CalendarDate = d: Date | ValidDate(d) witness Date(1970, 1, 1)

  /** The local-time reading of an epoch-seconds timestamp (`moment.unix(t)`,
      `new Date(t * 1000)`). It depends on the time zone of the machine, so the
      model takes it as a parameter. */
  type LocalDate = int -> CalendarDate

  /** An attachment of a message. `kind` is the API's `type` tag ("image",
      "video", "location", ...). The attachment's own `created_at` and `name`
      are never read by the exporter and are not modelled. */
  datatype Attachment = Attachment(kind: string, url: string)

  /** A message as the API returns it; `createdAt` is in epoch seconds and
      `attachments` may be absent. */
  datatype Message = Message(
    id: string,
    createdAt: int,
    text: string,
    name: string,
    attachments: Option<seq<Attachment>>)

  datatype MediaType = Photo | Video

  /** A media descriptor (`MediaFile`). */
  datatype MediaFile = MediaFile(
    mediaType: MediaType,
    mediaUrl: string,
    mediaExt: string,
    sentAt: CalendarDate)

  /** The extension `getMediaFiles` pairs with each media type. */
  function ExtFor(t: MediaType): string
  {
    match t
    case Photo => ".jpeg"
    case Video => ".mp4"
  }

  /** A descriptor whose extension is the one `getMediaFiles` gives its type. */
  predicate WellFormed(f: MediaFile)
  {
    f.mediaExt == ExtFor(f.mediaType)
  }
}
