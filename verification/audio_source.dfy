/**
 * `Mixcloud.retreive_audio_src`: one resilient fetch of the resolver endpoint for a key, then the
 * `url` field of the JSON body.
 */
module AudioSource {
  import opened Wrappers
  import opened ResilientFetch

  /** The resolution endpoint; the key is appended to it unchanged. */
  const ResolverEndpoint := "https://justcors.com/l_n1ehx3zipc/https://www.dlmixcloud.com/ajax.php/?url=https://www.mixcloud.com"

  /** The address fetched to resolve `key`. */
  function ResolverUrl(key: string): (url: string)
    ensures ResolverEndpoint <= url
    ensures url[|ResolverEndpoint|..] == key
  {
    ResolverEndpoint + key
  }

  /** Distinct keys are resolved at distinct addresses. */
  lemma ResolverUrlInjective(k1: string, k2: string)
    requires ResolverUrl(k1) == ResolverUrl(k2)
    ensures k1 == k2
  {
    assert k1 == ResolverUrl(k1)[|ResolverEndpoint|..];
  }

  /** A decoded JSON value. */
  datatype Json =
    | JNull
    | JBool(b: bool)
    | JNumber(n: int)
    | JString(s: string)
    | JArray(items: seq<Json>)
    | JObject(fields: map<string, Json>)

  /**
   * What `JSON.parse(await response.text())` makes of a response: reading the text can reject
   * with `err` (the connection drops while the body streams), the text can fail to parse, or it
   * parses to a JSON value.
   */
  datatype Body<+E> = Unreadable(err: E) | NotJson | Parsed(value: Json)

  /**
   * `value["url"]`: the field when `value` is an object that has one, `undefined` (None) for every
   * other value, and a TypeError for `null`, whose fields cannot be read.
   */
  function UrlField<E>(value: Json): (r: Result<Option<Json>, Thrown<E>>)
    ensures r.Failure? <==> value.JNull?
    ensures r.Failure? ==> r.error == TypeError
    ensures r.Success? && r.value.Some? <==> value.JObject? && "url" in value.fields
    ensures r.Success? && r.value.Some? ==> r.value.value == value.fields["url"]
  {
    match value
    case JNull => Failure(TypeError)
    case JObject(fields) => Success(if "url" in fields then Some(fields["url"]) else None)
    case _ => Success(None)
  }

  /**
   * The audio source of `key`: whatever the fetch of its resolver address throws is thrown
   * unchanged and so is a rejection of reading its text, neither retried; a body that is not JSON
   * throws a SyntaxError, and otherwise the `url` field is read.
   */
  function RetrieveAudioSrc<R, E>(key: string, transport: nat -> Outcome<R, E>, connectivity: nat -> Wait,
                                  body: R -> Body<E>): (r: Result<Option<Json>, Thrown<E>>)
    ensures var run := Fetch(ResolverUrl(key), DefaultMaxAttempts, transport, connectivity);
      && (run.result.Failure? ==> r == Failure(run.result.error))
      && (run.result.Success? && body(run.result.value).Unreadable? ==> r == Failure(Rethrown(body(run.result.value).err)))
      && (run.result.Success? && body(run.result.value).NotJson? ==> r == Failure(SyntaxError))
      && (r.Success? <==> run.result.Success? && body(run.result.value).Parsed?
                          && !body(run.result.value).value.JNull?)
      && (run.result.Success? && body(run.result.value).Parsed? ==> r == UrlField(body(run.result.value).value))
  {
    var run := Fetch(ResolverUrl(key), DefaultMaxAttempts, transport, connectivity);
    match run.result
    case Failure(thrown) => Failure(thrown)
    case Success(resp) =>
      match body(resp)
      case Unreadable(err) => Failure(Rethrown(err))
      case NotJson => Failure(SyntaxError)
      case Parsed(value) => UrlField(value)
  }

  /** Whichever attempt the fetch succeeds on, a body `{"url": u}` yields `u`. */
  lemma ReturnsUrlField<R, E>(key: string, transport: nat -> Outcome<R, E>, connectivity: nat -> Wait,
                              body: R -> Body<E>, resp: R, fields: map<string, Json>)
    requires Fetch(ResolverUrl(key), DefaultMaxAttempts, transport, connectivity).result == Success(resp)
    requires body(resp) == Parsed(JObject(fields)) && "url" in fields
    ensures RetrieveAudioSrc(key, transport, connectivity, body) == Success(Some(fields["url"]))
  {
  }

  /** An object without a `url` field yields `undefined`, not an error. */
  lemma MissingFieldIsUndefined<R, E>(key: string, transport: nat -> Outcome<R, E>, connectivity: nat -> Wait,
                                      body: R -> Body<E>, resp: R, fields: map<string, Json>)
    requires Fetch(ResolverUrl(key), DefaultMaxAttempts, transport, connectivity).result == Success(resp)
    requires body(resp) == Parsed(JObject(fields)) && "url" !in fields
    ensures RetrieveAudioSrc(key, transport, connectivity, body) == Success(None)
  {
  }

  /** A body that is not JSON throws a SyntaxError after a first-attempt success; no second fetch is made. */
  lemma NonJsonBodyThrows<R, E>(key: string, transport: nat -> Outcome<R, E>, connectivity: nat -> Wait,
                                body: R -> Body<E>, resp: R)
    requires transport(0) == Ok(resp)
    requires body(resp) == NotJson
    ensures Fetch(ResolverUrl(key), DefaultMaxAttempts, transport, connectivity).calls == 1
    ensures RetrieveAudioSrc(key, transport, connectivity, body) == Failure(SyntaxError)
  {
    CleanFirstAttempt(ResolverUrl(key), DefaultMaxAttempts, transport, connectivity, resp);
  }

  /**
   * A body whose text cannot be read after a first-attempt success: the rejection is thrown
   * unchanged, and the fetch is not retried, since the retry loop only wraps `fetch` itself.
   */
  lemma UnreadableBodyNotRetried<R, E>(key: string, transport: nat -> Outcome<R, E>, connectivity: nat -> Wait,
                                       body: R -> Body<E>, resp: R, err: E)
    requires transport(0) == Ok(resp)
    requires body(resp) == Unreadable(err)
    ensures Fetch(ResolverUrl(key), DefaultMaxAttempts, transport, connectivity).calls == 1
    ensures RetrieveAudioSrc(key, transport, connectivity, body) == Failure(Rethrown(err))
  {
    CleanFirstAttempt(ResolverUrl(key), DefaultMaxAttempts, transport, connectivity, resp);
  }

  /** With the network down for all ten attempts, resolution throws the give-up message naming the resolver address. */
  lemma OfflineResolutionGivesUp<R, E>(key: string, transport: nat -> Outcome<R, E>, connectivity: nat -> Wait,
                                       body: R -> Body<E>)
    requires forall i: nat :: i < DefaultMaxAttempts ==> transport(i).NetErr? && connectivity(i).Connected?
    ensures RetrieveAudioSrc(key, transport, connectivity, body)
            == Failure(Message("Timed out trying to get " + ResolverUrl(key)))
  {
    PersistentNetworkErrorsExhaust(ResolverUrl(key), DefaultMaxAttempts, transport, connectivity);
  }
}
