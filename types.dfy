/** The value shapes shared by the application controller and the scene
    service: the optional and fallible wrappers, and the image records of
    types.ts. */
module Types {

  datatype Option<T> = None | Some(value: T)

  /** The outcome of a step that can throw: a value, or the thrown error. */
  datatype Result<T, E> = Success(value: T) | Failure(error: E)

  /** `ImageData`: a base64 payload together with its MIME type. */
  datatype ImageData = ImageData(base64: string, mimeType: string)

  /** A browser `File`: its bytes and the MIME type it declares (`file.type`). */
  datatype File = File(bytes: seq<bv8>, mimeType: string)

  /** `ImageFile`: a selected file and the object URL of its preview. */
  datatype ImageFile = ImageFile(file: File, previewUrl: string)
}
