/** What the two forms exchange with the catalog service: the create payloads
    and the shapes a failed call can take. The service itself is not modelled;
    the result of one call is supplied to the form as an `Outcome`. */
module Api {
  import opened Js

  /** `{id}`: a reference to a category or a store. */
  datatype IdRef = IdRef(id: Num)

  /** `ProdutoCreateDTO`, the body of the product create call. */
  datatype ProdutoCreateDTO = ProdutoCreateDTO(
    nome: string,
    descricao: string,
    valor: int,
    categoria: IdRef,
    lojas: seq<IdRef>)

  /** One entry `{field, message}` of a server's list of field errors; a missing
      `message` is undefined. */
  datatype FieldError = FieldError(field: string, message: Option<string>)

  /** A property that the error body may carry as an array of field errors, or as
      any other value (undefined included), of which only the truthiness matters. */
  datatype ErrorList = Array(items: seq<FieldError>) | NotArray(truthy: bool) {
    /** Arrays are truthy even when empty. */
    predicate Truthy() {
      Array? || truthy
    }
  }

  /** `error.response.data` as the handlers read it. */
  datatype ErrorData = ErrorData(
    status: Option<int>,
    message: Option<string>,
    error: Option<string>,
    errors: ErrorList,
    erros: ErrorList)

  /** What a failed service call throws:
      - an axios error with a response; `data == None` is a falsy body (the empty
        string, whose properties all read as undefined);
      - any other `Error` (an axios error without a response included), with its message;
      - a thrown value that is not an `Error`. */
  datatype Failure =
    | HttpError(data: Option<ErrorData>)
    | PlainError(message: string)
    | NotAnError

  /** The result of one awaited service call. */
  datatype Outcome = Ok | Err(failure: Failure)
}
