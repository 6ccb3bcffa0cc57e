/** The Swagger document objects the documentation core reads and updates. */
module Swagger {

  /** A documented parameter: its name, its location (`in`: "path", "query",
      "body" or "header") and the type metadata a sample value is chosen by. */
  datatype Parameter = Parameter(name: string, location: string, paramType: string, format: string)

  /** The mutable, insertion-ordered parameter list attached to an operation. */
  class ParameterList {
    var items: seq<Parameter>

    constructor ()
      ensures items == []
    {
      items := [];
    }
  }

  /** A documented operation; its parameter list may not exist yet (null). */
  class Operation {
    var parameters: ParameterList?

    constructor (parameters: ParameterList?)
      ensures this.parameters == parameters
    {
      this.parameters := parameters;
    }
  }
}
