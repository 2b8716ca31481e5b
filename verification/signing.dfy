/** The per-request authentication parameters (`build_request_params`). */
module Signing {

  /** The query parameters of one API request. */
  datatype RequestParams = RequestParams(ts: string, apikey: string, hash: string, limit: int, offset: int)

  /** Signs a request. The MD5 hex digest (and the UTF-8 encoding before it)
      is a library call, so it is passed in as `md5`. */
  function BuildRequestParams(ts: string, publicKey: string, privateKey: string,
                              limit: int, offset: int, md5: string -> string): (p: RequestParams)
    ensures p.ts == ts && p.apikey == publicKey
    ensures p.limit == limit && p.offset == offset
    ensures p.hash == md5(ts + privateKey + publicKey)
  {
    RequestParams(ts, publicKey, md5(ts + privateKey + publicKey), limit, offset)
  }

  /** The signature depends only on the timestamp and the two keys: two
      requests for different pages signed at the same instant carry the same
      hash, and the parameter sets differ only in their paging fields. */
  lemma HashIgnoresPaging(ts: string, publicKey: string, privateKey: string,
                          limit1: int, offset1: int, limit2: int, offset2: int, md5: string -> string)
    ensures BuildRequestParams(ts, publicKey, privateKey, limit1, offset1, md5).hash
         == BuildRequestParams(ts, publicKey, privateKey, limit2, offset2, md5).hash
    ensures BuildRequestParams(ts, publicKey, privateKey, limit1, offset1, md5)
         == BuildRequestParams(ts, publicKey, privateKey, limit2, offset2, md5).(limit := limit1, offset := offset1)
  {
  }
}
