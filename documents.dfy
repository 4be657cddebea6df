/**
 * The values the pipeline passes around: LangChain documents with their
 * metadata dictionaries, the exceptions the code distinguishes, and the
 * tagged outcome of a call that may raise.
 */
module Documents {
  import Text

  datatype Option<+T> = None | Some(value: T)

  /** A metadata value: the int, str and None values the code stores and reads. */
  datatype Value = Int(i: int) | Str(s: string) | Null

  /** Python truthiness of a metadata value. */
  predicate Truthy(v: Value) {
    match v
    case Int(i) => i != 0
    case Str(s) => s != ""
    case Null => false
  }

  /** What an f-string prints for a metadata value. */
  function Render(v: Value): string {
    match v
    case Int(i) => Text.IntToString(i)
    case Str(s) => s
    case Null => "None"
  }

  type Metadata = map<string, Value>

  /** A LangChain `Document`: `page_content` and a `metadata` dictionary. */
  datatype Document = Document(pageContent: string, metadata: Metadata)

  /**
   * The exceptions the code tells apart: the Google API's `ResourceExhausted`
   * (quota or overload), the `ValueError`s raised by the retriever builder,
   * and every other exception.
   */
  datatype Exception = ResourceExhausted | ValueError(message: string) | OtherError

  /** The result of a call that either returns a value or raises. */
  datatype Outcome<+T> = Done(value: T) | Raised(error: Exception)

  /** An optional string key, truthy when present and non-empty (`not key` is false). */
  predicate HasKey(key: Option<string>) {
    key.Some? && key.value != ""
  }
}
