/** The data shapes of src/DTOs.cs. They carry no behaviour: JSON decoding into them is
    done by decoders that the model receives as parameters. */
module Dtos {

  /** The `{"result": ...}` envelope of every successful JSON response. */
  datatype ModbResponse<T> = ModbResponse(result: T)

  /** One field-level validation error of an error body; `code` and `attemptedValue` are
      arbitrary JSON, kept here as their text. */
  datatype FieldError = FieldError(code: string, field: string, attemptedValue: string, message: string, helpUrl: string)

  /** The error body the server sends with a non-success status. */
  datatype ModbError = ModbError(statusCode: int, statusMessage: string, traceId: string, errorMessage: string, errors: seq<FieldError>)

  datatype PagedList<T> = PagedList(page: int, pageSize: int, totalPages: int, totalItems: int, items: seq<T>)

  datatype Index = Index(name: string, indexType: string)

  datatype DbInformation = DbInformation(name: string, size: int, indices: seq<Index>)

  /** A secondary-index assignment sent along with a value. */
  datatype IndexItem = IndexItem(name: string, value: string, itemType: string)
}
