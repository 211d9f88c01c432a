/** The JSON envelope `{code, message, data}` every endpoint answers with. */
module CbResponses {
  import opened Kotlin

  const RESPONSE_CODE_SUCCESS: int := 0
  const RESPONSE_CODE_FAILED: int := -1001
  const RESPONSE_CODE_FAILED_NO_RES: int := -1002

  /** `data` is nullable: the failure constructor and `success(null)` leave it out. */
  datatype CbResponse<+T> = CbResponse(code: int, message: string, data: Option<T>) {
    /** The computed `success` property. */
    predicate IsSuccess() {
      code == RESPONSE_CODE_SUCCESS
    }
  }

  /** `CbResponse.failed(code, message)`: never carries data, and is a success
      only when a caller passes code 0 explicitly. */
  function Failed<T>(code: int := RESPONSE_CODE_FAILED, message: string := "Error"): (r: CbResponse<T>)
    ensures r.data.None? && r.code == code && r.message == message
    ensures r.IsSuccess() <==> code == RESPONSE_CODE_SUCCESS
  {
    CbResponse(code, message, None)
  }

  /** `CbResponse.success(data, code, message)`: carries `data` unchanged. */
  function Success<T>(data: Option<T>, code: int := RESPONSE_CODE_SUCCESS, message: string := "Success"): (r: CbResponse<T>)
    ensures r.data == data && r.code == code && r.message == message
    ensures r.IsSuccess() <==> code == RESPONSE_CODE_SUCCESS
  {
    CbResponse(code, message, data)
  }

  /** The default failure and the "no resource" failure both report `success == false`,
      while the default success reports `success == true`. */
  lemma DefaultsClassified<T>(m: string, d: Option<T>)
    ensures !Failed<T>().IsSuccess() && Failed<T>().message == "Error"
    ensures !Failed<T>(message := m).IsSuccess()
    ensures !Failed<T>(RESPONSE_CODE_FAILED_NO_RES, m).IsSuccess()
    ensures Success(d).IsSuccess() && Success(d).message == "Success"
  {
  }

  /** An exception that escapes a handler: a failure of the HTTP client (an I/O
      error or a body it cannot read), or a `Location` header that is not a URI. */
  datatype Exception = ClientException(message: string) | IllegalLocation(raw: string)

  /** What a handler hands back to the web framework: the envelope it returns, or an
      exception it does not catch. */
  datatype Answer<+T> = Returned(response: CbResponse<T>) | Threw(exception: Exception) {
    /** The handler returned an envelope whose `success` is true. */
    predicate Succeeded() {
      Returned? && response.IsSuccess()
    }
  }
}
