/** The `ApiResponse` envelope of src/utils/api-response.ts. Its fields are readonly, so it is
    a value: nothing can change it after construction. */
module ApiResponses {

  datatype ApiResponse<T> = ApiResponse(statusCode: int, data: T, message: string, success: bool)

  /** `new ApiResponse(statusCode, data, message = "Success")`. */
  function NewApiResponse<T(==)>(statusCode: int, data: T, message: string := "Success"): (r: ApiResponse<T>)
    ensures r.statusCode == statusCode && r.data == data && r.message == message
    ensures r.success <==> 200 <= statusCode < 300
  {
    ApiResponse(statusCode, data, message, 200 <= statusCode && statusCode < 300)
  }

  /** Leaving out the message gives "Success", and a response built for a 2xx status reports
      success while any other status reports failure. */
  lemma DefaultMessageAndSuccess<T>(statusCode: int, data: T)
    ensures NewApiResponse(statusCode, data).message == "Success"
    ensures NewApiResponse(statusCode, data).success == (200 <= statusCode < 300)
  {
  }
}
