/** What the API handlers share: the uploaded file and JSON error bodies. */
module Http {
  import opened Results
  import opened Js

  /** The uploaded file as formidable reports it: its path and MIME type, '' when absent. */
  datatype Upload = Upload(filepath: string, mimetype: string)

  /** `!file?.filepath || !file?.mimetype` */
  predicate MissingFile(upload: Option<Upload>) {
    upload.None? || upload.value.filepath == "" || upload.value.mimetype == ""
  }

  /** The body `{ error: message }`. */
  function ErrorBody(message: string): (r: Value)
    ensures r.Obj? && Lookup(r.props, "error") == Str(message) && KeysOf(r.props) == ["error"]
  {
    Obj([Prop("error", Str(message))])
  }

  /** The body `{ error: message, details: details }`. */
  function DetailedErrorBody(message: string, details: string): (r: Value)
    ensures r.Obj? && Lookup(r.props, "error") == Str(message) && Lookup(r.props, "details") == Str(details)
    ensures KeysOf(r.props) == ["error", "details"]
  {
    Obj([Prop("error", Str(message)), Prop("details", Str(details))])
  }
}
