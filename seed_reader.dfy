/** The seed reader: resolves the seed location (an empty path means the
    default file under the data directory), fetches it over HTTP when the path
    carries an http:// or https:// scheme and reads the local file otherwise,
    and decodes the bytes as an array of server details, with an untyped second
    decode tried only when the first one fails.

    The file system, the HTTP client and the JSON decoder are oracles bundled in
    an `Environment`; the reader reports the effects it performs, in order, so
    that what it touches and when it stops can be stated. */
module SeedReader {
  import opened Model

  type Bytes = seq<bv8>

  /** `filepath.Join("data", "seed.json")` with the Unix separator. */
  const DefaultPath := "data/seed.json"
  const HttpScheme := "http://"
  const HttpsScheme := "https://"
  const StatusOK := 200

  /** An untyped JSON object of the fallback decode. */
  type Record = map<string, string>

  /** `os.Stat`: no error, an error `os.IsNotExist` recognises, any other error. */
  datatype StatResult = Present | Missing | StatFailed

  /** `os.ReadFile`, or reading a response body. */
  datatype ReadResult = Read(content: Bytes) | ReadFailed

  /** `client.Get`: a response with its status and body, or a transport error. */
  datatype FetchResult = Fetched(status: int, body: ReadResult) | RequestFailed

  /** Decoding into `[]ServerDetail`. A failed decode still leaves in the
      target whatever it managed to fill (`partial`), as Go's decoder does when
      a value has the wrong type. */
  datatype TypedDecode = Decoded(servers: seq<ServerDetail>) | TypedFailed(partial: seq<ServerDetail>)

  /** Decoding into `[]map[string]any`. */
  datatype RawDecode = RawDecoded(records: seq<Record>) | RawFailed

  datatype Environment = Environment(
    stat: string -> StatResult,
    readFile: string -> ReadResult,
    fetch: string -> FetchResult,
    decodeTyped: Bytes -> TypedDecode,
    decodeRaw: Bytes -> RawDecode)

  datatype FetchError = Unreachable | BadStatus(status: int) | BodyUnreadable

  datatype SeedError =
    | NotFound(path: string)
    | FetchFailed(url: string, cause: FetchError)
    | FileUnreadable(path: string)
    | ParseFailed
      /** The document is a JSON array, but not of server details (only the
          corrected decode policy reports this). */
    | NotServerDetails(records: nat)

  /** How a read ends. `FallbackParsed` is the branch where the typed decode
      failed but the untyped one succeeded: the caller gets no error and the
      partial typed result, and the parsed records are dropped. */
  datatype SeedRead =
    | Loaded(servers: seq<ServerDetail>)
    | FallbackParsed(servers: seq<ServerDetail>, discarded: seq<Record>)
    | Failed(error: SeedError)

  /** What the reader's caller receives: the servers and an optional error. */
  function Observed(r: SeedRead): (seq<ServerDetail>, Option<SeedError>)
  {
    match r
    case Loaded(s) => (s, None)
    case FallbackParsed(s, _) => (s, None)
    case Failed(e) => ([], Some(e))
  }

  datatype Effect = Stat(path: string) | Fetch(url: string) | ReadFile(path: string) | DecodeTyped | DecodeRaw

  datatype Run = Run(result: SeedRead, effects: seq<Effect>)

  predicate HasPrefix(s: string, prefix: string)
  {
    |prefix| <= |s| && s[..|prefix|] == prefix
  }

  /** The location is fetched over HTTP exactly when this holds. */
  predicate IsUrl(path: string)
  {
    HasPrefix(path, HttpScheme) || HasPrefix(path, HttpsScheme)
  }

  function ResolvePath(path: string): string
  {
    if path == "" then DefaultPath else path
  }

  /** `readFromHTTP` on the outcome of the request. */
  function ReadFromHttp(fetched: FetchResult): (r: Result<Bytes, FetchError>)
    ensures r.Success? <==> fetched.Fetched? && fetched.status == StatusOK && fetched.body.Read?
    ensures r.Success? ==> r.value == fetched.body.content
    ensures fetched.Fetched? && fetched.status != StatusOK ==> r == Failure(BadStatus(fetched.status))
    ensures fetched.RequestFailed? ==> r == Failure(Unreachable)
  {
    match fetched
    case RequestFailed => Failure(Unreachable)
    case Fetched(status, body) =>
      if status != StatusOK then Failure(BadStatus(status))
      else
        match body
        case ReadFailed => Failure(BodyUnreadable)
        case Read(content) => Success(content)
  }

  /** The effect that obtains the bytes of a resolved location. */
  function Access(p: string): Effect
  {
    if IsUrl(p) then Fetch(p) else ReadFile(p)
  }

  /** The bytes of a resolved location, or the error that prevented reading them. */
  function Retrieve(p: string, env: Environment): Result<Bytes, SeedError>
  {
    if IsUrl(p) then
      match ReadFromHttp(env.fetch(p))
      case Failure(e) => Failure(FetchFailed(p, e))
      case Success(content) => Success(content)
    else
      match env.readFile(p)
      case ReadFailed => Failure(FileUnreadable(p))
      case Read(content) => Success(content)
  }

  /** The decode policy as written: the typed result when it succeeds; when
      it fails, an error only if the untyped decode fails too. */
  function DecodeSeed(typed: TypedDecode, raw: RawDecode): SeedRead
  {
    match typed
    case Decoded(servers) => Loaded(servers)
    case TypedFailed(partial) =>
      match raw
      case RawFailed => Failed(ParseFailed)
      case RawDecoded(records) => FallbackParsed(partial, records)
  }

  /** The corrected policy: the untyped decode only refines the diagnostic,
      and any failure of the typed decode is an error. */
  function StrictDecodeSeed(typed: TypedDecode, raw: RawDecode): (r: SeedRead)
    ensures Observed(r).1.None? <==> typed.Decoded?
    ensures typed.Decoded? ==> Observed(r).0 == typed.servers
    ensures typed.TypedFailed? && raw.RawDecoded? ==> r == Failed(NotServerDetails(|raw.records|))
    ensures typed.TypedFailed? && raw.RawFailed? ==> r == Failed(ParseFailed)
  {
    match typed
    case Decoded(servers) => Loaded(servers)
    case TypedFailed(_) =>
      match raw
      case RawFailed => Failed(ParseFailed)
      case RawDecoded(records) => Failed(NotServerDetails(|records|))
  }

  /** A whole read, as a value: what `ReadSeedFile` returns and does. */
  function Load(path: string, env: Environment): Run
  {
    var p := ResolvePath(path);
    var checked := if path == "" then [Stat(DefaultPath)] else [];
    if path == "" && env.stat(DefaultPath) == Missing then
      Run(Failed(NotFound(DefaultPath)), checked)
    else
      match Retrieve(p, env)
      case Failure(e) => Run(Failed(e), checked + [Access(p)])
      case Success(content) =>
        var typed := env.decodeTyped(content);
        if typed.Decoded? then
          Run(DecodeSeed(typed, RawFailed), checked + [Access(p), DecodeTyped])
        else
          Run(DecodeSeed(typed, env.decodeRaw(content)), checked + [Access(p), DecodeTyped, DecodeRaw])
  }

  /** `ReadSeedFile`. */
  method ReadSeedFile(path: string, env: Environment) returns (r: SeedRead, effects: seq<Effect>)
    ensures Run(r, effects) == Load(path, env)
  {
    effects := [];
    var p := path;
    if p == "" {
      p := DefaultPath;
      effects := effects + [Stat(p)];
      if env.stat(p) == Missing {
        r := Failed(NotFound(p));
        return;
      }
    }

    var content: Bytes;
    if HasPrefix(p, HttpScheme) || HasPrefix(p, HttpsScheme) {
      effects := effects + [Fetch(p)];
      var fetched := ReadFromHttp(env.fetch(p));
      if fetched.Failure? {
        r := Failed(FetchFailed(p, fetched.error));
        return;
      }
      content := fetched.value;
    } else {
      effects := effects + [ReadFile(p)];
      var read := env.readFile(p);
      if read.ReadFailed? {
        r := Failed(FileUnreadable(p));
        return;
      }
      content := read.content;
    }

    effects := effects + [DecodeTyped];
    var typed := env.decodeTyped(content);
    var servers := if typed.Decoded? then typed.servers else typed.partial;
    if typed.TypedFailed? {
      effects := effects + [DecodeRaw];
      var raw := env.decodeRaw(content);
      if raw.RawFailed? {
        r := Failed(ParseFailed);
        return;
      }
      r := FallbackParsed(servers, raw.records);
      return;
    }
    r := Loaded(servers);
  }

  // Properties of a read, stated on Load and its parts.

  /** A location counts as a URL exactly when it is "http://" or "https://"
      followed by something. */
  lemma UrlIffScheme(path: string)
    ensures IsUrl(path) <==> exists rest :: path == HttpScheme + rest || path == HttpsScheme + rest
  {
    if HasPrefix(path, HttpScheme) {
      assert path == HttpScheme + path[|HttpScheme|..];
    } else if HasPrefix(path, HttpsScheme) {
      assert path == HttpsScheme + path[|HttpsScheme|..];
    }
    forall rest | path == HttpScheme + rest || path == HttpsScheme + rest
      ensures IsUrl(path)
    {
      if path == HttpScheme + rest {
        assert path[..|HttpScheme|] == HttpScheme;
      } else {
        assert path[..|HttpsScheme|] == HttpsScheme;
      }
    }
  }

  /** An empty path whose default file does not exist fails with NotFound
      after the existence check alone: nothing is read or decoded. */
  lemma MissingDefaultFailsFirst(env: Environment)
    requires env.stat(DefaultPath) == Missing
    ensures Load("", env) == Run(Failed(NotFound(DefaultPath)), [Stat(DefaultPath)])
  {
  }

  /** The default location is a local path. */
  lemma DefaultPathIsLocal()
    ensures !IsUrl(DefaultPath)
  {
    assert DefaultPath[..|HttpScheme|][0] != HttpScheme[0];
    assert DefaultPath[..|HttpsScheme|][0] != HttpsScheme[0];
  }

  /** An empty path is replaced by the default, which is read from the local
      file system; only a missing default stops it (other stat errors do not). */
  lemma EmptyPathReadsDefaultFile(env: Environment)
    requires env.stat(DefaultPath) != Missing
    ensures var run := Load("", env);
      |run.effects| >= 2 && run.effects[0] == Stat(DefaultPath) && run.effects[1] == ReadFile(DefaultPath)
  {
    DefaultPathIsLocal();
  }

  /** A non-empty path is used unchanged and is not checked for existence. */
  lemma GivenPathUsedUnchanged(path: string, env: Environment)
    requires path != ""
    ensures var run := Load(path, env);
      |run.effects| >= 1 && run.effects[0] == Access(path)
      && forall k :: 0 <= k < |run.effects| ==> !run.effects[k].Stat?
  {
  }

  /** The resolved location is fetched over HTTP if and only if it is a URL,
      and read from the file system if and only if it is not; nothing else is
      fetched or read. */
  lemma FetchIffUrl(path: string, env: Environment, x: string)
    requires !(path == "" && env.stat(DefaultPath) == Missing)
    ensures Fetch(x) in Load(path, env).effects <==> x == ResolvePath(path) && IsUrl(x)
    ensures ReadFile(x) in Load(path, env).effects <==> x == ResolvePath(path) && !IsUrl(x)
  {
  }

  /** A failed fetch or read is an error carrying its cause, no servers are
      returned and no decode is attempted. */
  lemma RetrievalFailureSkipsDecode(path: string, env: Environment)
    requires !(path == "" && env.stat(DefaultPath) == Missing)
    requires Retrieve(ResolvePath(path), env).Failure?
    ensures var run := Load(path, env);
      && run.result == Failed(Retrieve(ResolvePath(path), env).error)
      && Observed(run.result).0 == []
      && DecodeTyped !in run.effects && DecodeRaw !in run.effects
  {
  }

  /** Any HTTP status but exactly 200 is a fetch error naming that status. */
  lemma NonOkStatusFails(url: string, env: Environment, status: int, body: ReadResult)
    requires IsUrl(url)
    requires env.fetch(url) == Fetched(status, body)
    requires status != StatusOK
    ensures Load(url, env).result == Failed(FetchFailed(url, BadStatus(status)))
  {
  }

  /** A successful typed decode is the result, exactly and in document order,
      without an error and without the fallback decode. */
  lemma TypedDecodeIsResult(path: string, env: Environment, content: Bytes, servers: seq<ServerDetail>)
    requires !(path == "" && env.stat(DefaultPath) == Missing)
    requires Retrieve(ResolvePath(path), env) == Success(content)
    requires env.decodeTyped(content) == Decoded(servers)
    ensures var run := Load(path, env);
      && run.result == Loaded(servers)
      && Observed(run.result) == (servers, None)
      && DecodeRaw !in run.effects
  {
  }

  /** When both decodes fail the read is a parse error. */
  lemma BothDecodesFail(path: string, env: Environment, content: Bytes)
    requires !(path == "" && env.stat(DefaultPath) == Missing)
    requires Retrieve(ResolvePath(path), env) == Success(content)
    requires env.decodeTyped(content).TypedFailed?
    requires env.decodeRaw(content).RawFailed?
    ensures Load(path, env).result == Failed(ParseFailed)
  {
  }

  /** The latent defect: when the typed decode fails and the untyped one
      succeeds, the caller gets no error and only what the failed decode left
      behind; the parsed records are dropped. */
  lemma FallbackSuccessHidesFailure(path: string, env: Environment, content: Bytes, partial: seq<ServerDetail>, records: seq<Record>)
    requires !(path == "" && env.stat(DefaultPath) == Missing)
    requires Retrieve(ResolvePath(path), env) == Success(content)
    requires env.decodeTyped(content) == TypedFailed(partial)
    requires env.decodeRaw(content) == RawDecoded(records)
    ensures Load(path, env).result == FallbackParsed(partial, records)
    ensures Observed(Load(path, env).result) == (partial, None)
  {
  }

  /** The records of a successful fallback decode never reach the caller:
      replacing them by any others changes nothing observable. */
  lemma FallbackRecordsUnused(path: string, env: Environment, raw: Bytes -> RawDecode)
    requires forall c :: env.decodeRaw(c).RawDecoded? <==> raw(c).RawDecoded?
    ensures Observed(Load(path, env).result) == Observed(Load(path, env.(decodeRaw := raw)).result)
    ensures Load(path, env).effects == Load(path, env.(decodeRaw := raw)).effects
  {
  }

  /** The defect on a concrete input: for an array of one object whose name
      has the wrong type, the typed decode fails after allocating one empty
      detail and the untyped decode succeeds; the read then yields that empty
      detail and no error. */
  lemma FallbackLosesRecords()
    ensures var empty := ServerDetail(Server("", ""), []);
      Observed(DecodeSeed(TypedFailed([empty]), RawDecoded([map["name" := "5"]]))) == ([empty], None)
  {
  }

  /** The same input under the corrected policy is an error saying that the
      array held one record that is not a server detail. */
  lemma StrictPolicyReportsRecords()
    ensures var empty := ServerDetail(Server("", ""), []);
      Observed(StrictDecodeSeed(TypedFailed([empty]), RawDecoded([map["name" := "5"]]))) == ([], Some(NotServerDetails(1)))
  {
  }

  /** An HTTPS seed location answering 404 fails with a fetch error and yields
      no servers. */
  lemma NotFoundStatusScenario(env: Environment, body: ReadResult)
    requires env.fetch("https://example/seed.json") == Fetched(404, body)
    ensures Observed(Load("https://example/seed.json", env).result)
      == ([], Some(FetchFailed("https://example/seed.json", BadStatus(404))))
  {
  }
}
