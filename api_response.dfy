/**
 * ApiResponse: the immutable value the API client returns, either a
 * success carrying decoded data or an error carrying a message and an
 * HTTP status code.
 */
module ApiResponses {
  import opened Json

  /** Fields are fixed at construction; a datatype value never changes afterwards. */
  datatype ApiResponse = ApiResponse(success: bool, data: Json, errorMessage: string, statusCode: int)

  /** ApiResponse::success($data) */
  function Success(data: Json): (r: ApiResponse)
    ensures WellFormed(r) && r.success && r.data == data
  {
    ApiResponse(true, data, "", 200)
  }

  /** ApiResponse::error($message, $status_code = 500) */
  function Error(message: string, statusCode: int := 500): (r: ApiResponse)
    ensures WellFormed(r) && !r.success
    ensures r.errorMessage == message && r.statusCode == statusCode
  {
    ApiResponse(false, EmptyArray, message, statusCode)
  }

  /** What the two named constructors guarantee of every response they build. */
  predicate WellFormed(r: ApiResponse) {
    if r.success then r.errorMessage == "" && r.statusCode == 200
    else r.data == EmptyArray
  }

  /** A success never carries an error message and an error never carries data. */
  lemma ConstructorsWellFormed(data: Json, message: string, code: int)
    ensures WellFormed(Success(data)) && WellFormed(Error(message, code))
    ensures Success(data) != Error(message, code)
  {
  }
}
