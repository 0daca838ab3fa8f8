/**
 * The five property wrappers a request descriptor annotates its stored properties with,
 * and the descriptor itself: its static method and path template, and its stored
 * properties in declaration order (what `Mirror(reflecting:).children` yields).
 */
module Fields {
  import opened Wrappers
  import opened Types

  /** A value handed to `@Body`; any `Encodable`, kept abstract. */
  datatype Encodable = Encodable(payload: string)

  /** One stored property of a descriptor. `Plain` is a property with no wrapper. */
  datatype Field =
    | RequestHeader(name: string, wrappedValue: string)
    | PathArgument(name: string, wrappedValue: string)
    | QueryArgument(name: string, wrappedValue: string)
    | OptionalQueryArgument(name: string, optionalValue: Option<string>)
    | Body(bodyValue: Encodable)
    | Plain

  /** A type conforming to `URLRequestBuilder`, with one instance's stored properties. */
  datatype Descriptor = Descriptor(httpMethod: HTTPMethod, path: string, fields: seq<Field>)

  /** `RequestHeader(name:)`: the name is fixed, the wrapped value starts empty. */
  function NewRequestHeader(name: string): (f: Field)
    ensures f.RequestHeader? && f.name == name && f.wrappedValue == ""
  {
    RequestHeader(name, "")
  }

  /** `PathArgument(name:)`. */
  function NewPathArgument(name: string): (f: Field)
    ensures f.PathArgument? && f.name == name && f.wrappedValue == ""
  {
    PathArgument(name, "")
  }

  /** `QueryArgument(name:)`. */
  function NewQueryArgument(name: string): (f: Field)
    ensures f.QueryArgument? && f.name == name && f.wrappedValue == ""
  {
    QueryArgument(name, "")
  }

  /** `OptionalQueryArgument(name:)`: the wrapped value starts absent. */
  function NewOptionalQueryArgument(name: string): (f: Field)
    ensures f.OptionalQueryArgument? && f.name == name && f.optionalValue.None?
  {
    OptionalQueryArgument(name, None)
  }

  /** `Body(wrappedValue:)`: no name, exactly the given value. */
  function NewBody(value: Encodable): (f: Field)
    ensures f.Body? && f.bodyValue == value
  {
    Body(value)
  }
}
