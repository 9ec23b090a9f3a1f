/** The stored rows (`YTVideo`, `Thread`, `Message`), the wrappers for absent
    values and errors, and the HTTP error every endpoint raises. */
module Models {

  datatype Option<+T> = None | Some(value: T)

  datatype Result<+R, +E> = Ok(value: R) | Err(error: E)

  /** FastAPI's `HTTPException(status_code, detail)`. */
  datatype HttpError = HttpError(status: nat, detail: string)

  /** A row of `yt_video`; `videoId` is its primary key. Creation and update
      times are not modelled. */
  datatype Video = Video(
    videoId: string,
    url: string,
    title: string,
    authorName: Option<string>,
    thumbnailUrl: Option<string>,
    transcript: string,
    duration: Option<nat>,
    summary: string)

  /** A row of `threads`; `threadId` is its primary key and `videoId` a
      foreign key into `yt_video`. */
  datatype Thread = Thread(threadId: string, videoId: string, title: Option<string>)

  /** A row of `messages`; `messageId` is its primary key and `threadId` a
      foreign key into `threads`. `metadataJson` is the stored JSON text. */
  datatype Message = Message(
    messageId: string,
    threadId: string,
    sender: string,
    content: string,
    metadataJson: Option<string>)

  const Human := "human"
  const Ai := "ai"
}
