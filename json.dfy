/** Values an attribute can hold, and the JSON codec the validator relies on.
    The codec itself belongs to a foreign library; it is a parameter here. */
module Json {

  /** The conventional Some/None datatype; None stands for Ruby's nil. */
  datatype Option<+T> = None | Some(value: T)

  /** A Ruby value as produced by the JSON decoder (or assigned directly). */
  datatype Value =
    | Nil
    | Bool(b: bool)
    | Number(n: int)
    | Str(s: string)
    | Array(items: seq<Value>)
    | Hash(entries: map<string, Value>)

  /** The empty hash `{}`, stored when a string fails to decode. */
  const EmptyHash: Value := Hash(map[])

  /** The JSON codec: `decode` answers None where the library raises its
      parse error; `encode` is total. No round trip is assumed between them. */
  datatype Codec = Codec(decode: string -> Option<Value>, encode: Value -> string)

  /** Ruby truthiness: only nil and false are falsy. */
  predicate Falsy(v: Value) {
    v == Nil || v == Bool(false)
  }

  /** Characters matched by the POSIX class [[:space:]] on a Unicode string. */
  predicate IsSpace(c: char) {
    c == ' ' || ('\t' <= c <= '\r') || c == '\U{0085}' || c == '\U{00A0}' || c == '\U{1680}'
    || ('\U{2000}' <= c <= '\U{200A}') || c == '\U{2028}' || c == '\U{2029}'
    || c == '\U{202F}' || c == '\U{205F}' || c == '\U{3000}'
  }

  /** ActiveSupport's `blank?` on a value that is nil or a string:
      nil, the empty string and strings of whitespace only are blank. */
  predicate Blank(x: Option<string>) {
    match x
    case None => true
    case Some(s) => forall i :: 0 <= i < |s| ==> IsSpace(s[i])
  }
}
