/** The HTTP client every service goes through: the base address it is
    built with, the `{ success, data, error }` envelope every verb unwraps,
    the bearer header it adds and what it does when the server answers 401. */
module Api {
  import opened Text
  import opened Js

  // ---------------------------------------------------------------------------
  // The base address

  /** `url.replace(/\/+$/, '')`: the input without its trailing slashes. */
  function StripTrailingSlashes(url: string): (r: string)
    ensures r <= url
    ensures r == [] || r[|r| - 1] != '/'
    ensures forall i :: |r| <= i < |url| ==> url[i] == '/'
    decreases |url|
  {
    if |url| > 0 && url[|url| - 1] == '/' then StripTrailingSlashes(url[..|url| - 1]) else url
  }

  /** A text that does not end with a slash has none to strip. */
  lemma StripWithoutSlash(url: string)
    requires url == [] || url[|url| - 1] != '/'
    ensures StripTrailingSlashes(url) == url
  {
  }

  const ApiSuffix := "/api"

  /** `normalizeApiUrl`: strip the trailing slashes, then add `/api` unless it is already there. */
  function NormalizeApiUrl(url: string): (r: string)
    ensures EndsWith(r, ApiSuffix) && r[|r| - 1] != '/'
    ensures StripTrailingSlashes(url) <= r
    ensures |r| <= |StripTrailingSlashes(url)| + |ApiSuffix|
  {
    var normalized := StripTrailingSlashes(url);
    if EndsWith(normalized, ApiSuffix) then normalized else normalized + ApiSuffix
  }

  /** An address that already names `/api` only loses its trailing slashes. */
  lemma NormalizeKeepsApi(url: string)
    requires EndsWith(StripTrailingSlashes(url), ApiSuffix)
    ensures NormalizeApiUrl(url) == StripTrailingSlashes(url)
  {
  }

  /** Any other address gets `/api` appended to it. */
  lemma NormalizeAddsApi(url: string)
    requires !EndsWith(StripTrailingSlashes(url), ApiSuffix)
    ensures NormalizeApiUrl(url) == StripTrailingSlashes(url) + ApiSuffix
  {
  }

  /** Normalizing twice is normalizing once. */
  lemma NormalizeIdempotent(url: string)
    ensures NormalizeApiUrl(NormalizeApiUrl(url)) == NormalizeApiUrl(url)
  {
    var once := NormalizeApiUrl(url);
    StripWithoutSlash(once);
  }

  const DefaultApiUrl := "http://localhost:3000/api"

  /** `API_URL`: the configured address, or the local default when it is unset or empty. */
  function ApiUrl(configured: Option<string>): (r: string)
    ensures configured.None? || configured == Some("") ==> r == DefaultApiUrl
    ensures configured.Some? && configured.value != "" ==> r == NormalizeApiUrl(configured.value)
  {
    var url := if configured.Some? && configured.value != "" then configured.value else DefaultApiUrl;
    NormalizeKeepsApi(DefaultApiUrl);
    NormalizeApiUrl(url)
  }

  // ---------------------------------------------------------------------------
  // The response envelope

  /** `ApiResponse<T>`: the body every endpoint answers with. */
  datatype Envelope<T> = Envelope(success: bool, data: Option<T>, message: Option<string>, error: Option<string>)

  /** How a verb's promise settles: with the envelope's `data` (possibly
      `undefined`), or rejected with an `Error` carrying a message. */
  datatype Reply<T> = Resolved(value: Option<T>) | Rejected(message: string)

  const RequestFailed := "Erro na requisição"

  /** The check `get`, `post`, `put`, `patch` and `delete` all make on the body. */
  function Unwrap<T>(env: Envelope<T>): (r: Reply<T>)
    ensures r.Resolved? <==> env.success
    ensures r.Resolved? ==> r.value == env.data
    ensures r.Rejected? ==> r.message != ""
    ensures r.Rejected? && env.error.Some? && env.error.value != "" ==> r.message == env.error.value
    ensures r.Rejected? && (env.error.None? || env.error == Some("")) ==> r.message == RequestFailed
  {
    if !env.success then
      Rejected(if env.error.Some? && env.error.value != "" then env.error.value else RequestFailed)
    else
      Resolved(env.data)
  }

  /** What a server answers when it succeeds with `data`. */
  function Succeeded<T>(data: T): Envelope<T> {
    Envelope(true, Some(data), None, None)
  }

  /** What a server answers when it fails with `error`. */
  function Failed<T>(error: string): Envelope<T> {
    Envelope(false, None, None, Some(error))
  }

  /** The client hands back exactly what the server sent: the data of a
      success, the text of a failure. */
  lemma UnwrapRoundTrip<T>(data: T, error: string)
    requires error != ""
    ensures Unwrap(Succeeded(data)) == Resolved(Some(data))
    ensures Unwrap<T>(Failed(error)) == Rejected(error)
  {
  }

  /** The `message` field never decides anything: two bodies that differ only in it unwrap alike. */
  lemma UnwrapIgnoresMessage<T>(env: Envelope<T>, message: Option<string>)
    ensures Unwrap(env.(message := message)) == Unwrap(env)
  {
  }

  // ---------------------------------------------------------------------------
  // The interceptors

  /** An error the client rejects with: the response status when there was a response. */
  datatype ApiError = ApiError(status: Option<int>, message: string)

  const UnauthorizedStatus := 401
  const LoginPath := "/login"

  /** The browser state the client touches: local storage and the location. */
  class Session {
    var storage: map<string, string>
    var location: string

    constructor (storage: map<string, string>, location: string)
      ensures this.storage == storage && this.location == location
    {
      this.storage := storage;
      this.location := location;
    }

    /** The request interceptor: `Bearer <token>` when a non-empty token is stored. */
    method AuthorizationHeader() returns (header: Option<string>)
      ensures header.Some? <==> "token" in storage && storage["token"] != ""
      ensures header.Some? ==> header.value == "Bearer " + storage["token"]
      ensures header.Some? ==> storage["token"] == header.value[|"Bearer "|..]
    {
      if "token" in storage && storage["token"] != "" {
        header := Some("Bearer " + storage["token"]);
      } else {
        header := None;
      }
    }

    /** The response interceptor's error path: a 401 signs the user out and
        sends them to the login page; every error is rejected again as it came. */
    method OnResponseError(error: ApiError) returns (rejected: ApiError)
      modifies this
      ensures rejected == error
      ensures error.status == Some(UnauthorizedStatus) ==>
        storage == old(storage) - {"token", "user"} && location == LoginPath
      ensures error.status != Some(UnauthorizedStatus) ==>
        storage == old(storage) && location == old(location)
    {
      if error.status == Some(UnauthorizedStatus) {
        storage := storage - {"token"};
        storage := storage - {"user"};
        location := LoginPath;
      }
      rejected := error;
    }
  }
}
