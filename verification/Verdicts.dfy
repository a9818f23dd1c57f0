/** What http_parse_run answers: HTTP_PARSE_OK, HTTP_PARSE_END or HTTP_PARSE_ERR. */
module Verdicts {
  datatype Verdict = More | End | Error
}
