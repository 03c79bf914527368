/** The ways a request to `/api/jobs` fails, with the HTTP status each one
    produces. */
module Errors {
  import opened PyValue

  datatype ApiError =
    /** `HTTPException(400, detail)`: the request names an unknown site, a job
        type or a description format the gateway does not accept. */
    | BadRequest(detail: string)
    /** `HTTPException(500, detail={...})`: the scraping library raised and no
        other source was requested. */
    | UpstreamFailure(error: string, errorType: string, parameters: Dict)
    /** An exception the handler does not catch, which the framework turns
        into a 500 (a non-string `output_format`, a list `job_type`, ...). */
    | Unhandled(exceptionType: string)
  {
    function Status(): (code: int)
      ensures code == 400 <==> this.BadRequest?
      ensures code == 400 || code == 500
    {
      if BadRequest? then 400 else 500
    }
  }
}
