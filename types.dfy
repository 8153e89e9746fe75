/** The record shape shared by the store and the screens (src/types/index.ts). */
module Types {

  datatype Option<+T> = None | Some(value: T)

  /** One uploaded video; `thumbnail` is the optional field of the record type. */
  datatype Video = Video(
    id: string,
    title: string,
    description: string,
    uri: string,
    group: string,
    uploader: string,
    thumbnail: Option<string>)

  /**
   * The single demo identity. The upload form writes it literally into every
   * new record, and the profile screen filters by the same literal.
   */
  const DemoUser: string := "Luca Rossi"
}
