/**
 * The client configuration: defaults, the default status validator, and the
 * clone/merge pair that combines a client-wide configuration with a
 * per-call one, the per-call values taking precedence.
 */
module ConfigModel {
  import opened Common
  import opened RetryModel

  /** The status validator is a function value in the client; here it is a
      token that identifies it. */
  datatype StatusValidator = DefaultValidator | CustomValidator(id: nat)

  datatype Config = Config(
    baseURL: string,
    timeout: Duration,
    headers: map<string, string>,
    statusValidator: Option<StatusValidator>,
    retryOptions: Option<RetryOptions>)

  /** The default configuration: no base URL, a 30 s timeout, no headers,
      the 2xx validator, no retry options. */
  function NewConfig(): (c: Config)
    ensures c.headers == map[] && c.timeout == 30 * Second
    ensures c.baseURL == "" && c.statusValidator == Some(DefaultValidator) && c.retryOptions.None?
  {
    Config("", 30 * Second, map[], Some(DefaultValidator), None)
  }

  /** A response status is accepted by default when it is a 2xx status; the
      default retry options never retry a status it accepts. */
  function DefaultStatusValidator(statusCode: int): (accepted: bool)
    ensures accepted ==> !ShouldRetryStatus(NewRetryOptions(), statusCode)
  {
    statusCode >= 200 && statusCode < 300
  }

  /** The default validator accepts exactly 200..299, and no status it accepts
      is ever retried because of its status, whatever extra codes are
      configured outside that range. */
  lemma DefaultStatusValidatorRange(statusCode: int, opts: RetryOptions)
    ensures DefaultStatusValidator(statusCode) <==> 200 <= statusCode <= 299
    ensures DefaultStatusValidator(statusCode) && statusCode !in opts.retryOnStatusCodes ==>
              !ShouldRetryStatus(opts, statusCode)
    ensures DefaultStatusValidator(statusCode) ==> !ShouldRetryStatus(NewRetryOptions(), statusCode)
  {
  }

  /** A deep copy: a new header map filled entry by entry.  The copy of the
      retry options and of their status-code list is implicit, since these
      are values here. */
  method Clone(c: Config) returns (r: Config)
    ensures r == c
  {
    var headers: map<string, string> := map[];
    var pending := c.headers.Keys;
    while pending != {}
      invariant pending <= c.headers.Keys
      invariant headers.Keys == c.headers.Keys - pending
      invariant forall k | k in headers :: headers[k] == c.headers[k]
      decreases pending
    {
      var k :| k in pending;
      headers := headers[k := c.headers[k]];
      pending := pending - {k};
    }
    assert headers == c.headers;
    r := Config(c.baseURL, c.timeout, headers, c.statusValidator, c.retryOptions);
  }

  /** The merge of `c` with `other`: every field `other` sets wins, the
      header maps are united with `other` winning on shared keys. */
  function Merged(c: Config, other: Config): (m: Config)
  {
    Config(
      if other.baseURL != "" then other.baseURL else c.baseURL,
      if other.timeout != 0 then other.timeout else c.timeout,
      c.headers + other.headers,
      if other.statusValidator.Some? then other.statusValidator else c.statusValidator,
      if other.retryOptions.Some? then other.retryOptions else c.retryOptions)
  }

  /** Merges `other` into a clone of `c`, field by field and header by
      header; `c` itself is a value and so is left as it was. */
  method Merge(c: Config, other: Config) returns (merged: Config)
    ensures merged == Merged(c, other)
  {
    merged := Clone(c);
    if other.baseURL != "" {
      merged := merged.(baseURL := other.baseURL);
    }
    if other.timeout != 0 {
      merged := merged.(timeout := other.timeout);
    }
    var pending := other.headers.Keys;
    while pending != {}
      invariant pending <= other.headers.Keys
      invariant merged.baseURL == Merged(c, other).baseURL && merged.timeout == Merged(c, other).timeout
      invariant merged.statusValidator == c.statusValidator && merged.retryOptions == c.retryOptions
      invariant merged.headers.Keys == c.headers.Keys + (other.headers.Keys - pending)
      invariant forall k | k in merged.headers ::
                  merged.headers[k] == if k in other.headers && k !in pending then other.headers[k] else c.headers[k]
      decreases pending
    {
      var k :| k in pending;
      merged := merged.(headers := merged.headers[k := other.headers[k]]);
      pending := pending - {k};
    }
    if other.statusValidator.Some? {
      merged := merged.(statusValidator := other.statusValidator);
    }
    if other.retryOptions.Some? {
      merged := merged.(retryOptions := other.retryOptions);
    }
    assert merged.headers == c.headers + other.headers;
  }

  /** Header precedence: every key of either side is present, `other`'s
      value wins on a shared key, and a key only the receiver has keeps the
      receiver's value. */
  lemma MergedHeaders(c: Config, other: Config, k: string)
    ensures k in Merged(c, other).headers <==> k in c.headers || k in other.headers
    ensures k in other.headers ==> Merged(c, other).headers[k] == other.headers[k]
    ensures k in c.headers && k !in other.headers ==> Merged(c, other).headers[k] == c.headers[k]
  {
  }

  /** Scalar precedence: base URL and timeout come from `other` exactly when
      it sets them; retry options are replaced exactly when `other` has some. */
  lemma MergedFields(c: Config, other: Config)
    ensures other.baseURL != "" ==> Merged(c, other).baseURL == other.baseURL
    ensures other.baseURL == "" ==> Merged(c, other).baseURL == c.baseURL
    ensures other.timeout != 0 ==> Merged(c, other).timeout == other.timeout
    ensures other.timeout == 0 ==> Merged(c, other).timeout == c.timeout
    ensures other.retryOptions.Some? ==> Merged(c, other).retryOptions == other.retryOptions
    ensures other.retryOptions.None? ==> Merged(c, other).retryOptions == c.retryOptions
  {
  }

  /** A configuration that sets nothing changes nothing when merged in, and
      merging a configuration into itself gives it back. */
  lemma MergeIdentityAndIdempotence(c: Config)
    ensures Merged(c, Config("", 0, map[], None, None)) == c
    ensures Merged(c, c) == c
  {
  }

  /** Merging is associative, so a chain of overrides can be folded in any
      grouping. */
  lemma MergeAssociative(a: Config, b: Config, c: Config)
    ensures Merged(Merged(a, b), c) == Merged(a, Merged(b, c))
  {
  }

  /** The merge test: a base URL and a header set by the per-call
      configuration, the client-wide 5 s timeout and Authorization header kept. */
  method MergeExample() returns (merged: Config)
    ensures merged.baseURL == "https://api2.example.com"
    ensures merged.timeout == 5 * Second
    ensures merged.headers == map["Authorization" := "Bearer token1", "X-Custom" := "value"]
  {
    var config1 := NewConfig().(baseURL := "https://api.example.com", timeout := 5 * Second,
                                headers := map["Authorization" := "Bearer token1"]);
    var config2 := Config("https://api2.example.com", 0, map["X-Custom" := "value"], None, None);
    merged := Merge(config1, config2);
  }
}
