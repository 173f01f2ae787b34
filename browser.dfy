/** The browser `File` the forms hand to the upload helpers. */
module Browser {

  /** A selected file: its name, its size in bytes and its MIME type. */
  datatype File = File(name: string, size: nat, mimeType: string)
}
