/** The error data model shared by the tokenizer, the parsers and the diagnostics
    (the `ErrorKind`, `SingleError` and `Error` types that src/error/ariadne.rs consumes). */
module Errors {
  import opened Tokens

  datatype ErrorKind =
    | Silent
    | Custom(message: string, span: Span)
    | UnknownCharacter(span: Span)
    | UnterminatedGroup(start: Span, span: Span)
    | UnterminatedChar(span: Span)
    | LongChar(span: Span)
    | UnterminatedString(span: Span)
    | UnexpectedToken(expected: set<string>, span: Span)
    | EndOfFile(span: Span)

  datatype SingleError = SingleError(source: SourceId, kind: ErrorKind)

  /** An ordered collection of failures. */
  type Error = seq<SingleError>

  /** `Error::new`: one failure. */
  function NewError(source: SourceId, kind: ErrorKind): (e: Error)
  {
    [SingleError(source, kind)]
  }

  /** `Error::empty()`: the placeholder a composite parse returns before it is rewritten. */
  function EmptyError(): Error
  {
    []
  }

  /** `Error::with`: the failures of `a` followed by those of `b`. */
  function With(a: Error, b: Error): (e: Error)
    ensures |e| == |a| + |b|
    ensures e[..|a|] == a && e[|a|..] == b
  {
    a + b
  }

  /** `UnexpectedToken` naming a single expected display string. */
  function Unexpected(source: SourceId, expected: string, span: Span): Error
  {
    NewError(source, UnexpectedToken({expected}, span))
  }

  datatype Result<T> = Ok(value: T) | Err(error: Error)

  datatype Option<T> = None | Some(value: T)
}
