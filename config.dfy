/**
 * core/config.py: the Config dict with attribute access, and the functions
 * that load a pipeline config or a manifest from bytes or from a file, check
 * it against a JSON schema and map failures to the package's errors.
 * The UTF-8 decoder, the JSON decoder and jsonschema are not interpreted:
 * they are inputs.
 */
module Configuration {
  import opened Wrappers
  import opened Errors
  import opened Json

  newtype byte = b: int | 0 <= b < 256

  /** `bytes.decode('utf-8')` and `json.loads`, each succeeding or raising with a message. */
  datatype JsonCodec = JsonCodec(decodeUtf8: seq<byte> -> Result<string, string>, loads: string -> Result<Json, string>)

  /** The outcome of `jsonschema.validate(instance=data, schema=schema)` for one fixed schema. */
  datatype SchemaVerdict = Conforms | SchemaError(detail: string) | ValidationError(detail: string)

  type Validator = Json -> SchemaVerdict

  /** The local file system: each existing path maps to its text, or to None when opening or reading it fails. */
  type FileSystem = map<string, Option<string>>

  /** A pipeline config or manifest: a dict whose keys can also be read and written as attributes. */
  class Config {
    var data: map<string, Json>

    constructor (data: map<string, Json>)
      ensures this.data == data
    {
      this.data := data;
    }

    /** `config.key`. */
    function GetAttr(key: string): (r: Result<Json, Raised>)
      reads this
      ensures r == Attribute(data, key)
    {
      Attribute(data, key)
    }

    /** `config.key = value` stores `value` under `key` in the dict. */
    method SetAttr(key: string, value: Json)
      modifies this
      ensures data == old(data)[key := value]
      ensures GetAttr(key) == Success(value)
      ensures forall k :: k != key ==> GetAttr(k) == old(GetAttr(k))
    {
      data := data[key := value];
    }
  }

  /**
   * `config.key` on a Config holding `d`: the stored value, or AttributeError (not
   * KeyError) for a missing key. This is `__getattr__`, which Python consults only
   * for names that `dict` does not itself define (see DictAttributes).
   */
  function Attribute(d: map<string, Json>, key: string): (r: Result<Json, Raised>)
    ensures r.Success? <==> key in d
    ensures r.Success? ==> r.value == d[key]
    ensures r.Failure? ==> r.error == AttributeError(key)
  {
    if key in d then Success(d[key]) else Failure(AttributeError(key))
  }

  /** The public attributes of `dict`: reading one of these on a Config gives the bound method, not a key. */
  const DictAttributes: set<string> := {"clear", "copy", "fromkeys", "get", "items", "keys", "pop", "popitem", "setdefault", "update", "values"}

  /** The attributes the clients and the sample job read are all key lookups. */
  lemma ReadAttributesAreKeys()
    ensures {"pipeline_name", "tapis_config", "remote_outbox", "files"} * DictAttributes == {}
  {
  }

  /** `s.replace('\n', '')`. */
  function StripNewlines(s: string): (r: string)
    ensures '\n' !in r
    ensures |r| <= |s|
  {
    if s == [] then []
    else if s[|s| - 1] == '\n' then StripNewlines(s[..|s| - 1])
    else StripNewlines(s[..|s| - 1]) + [s[|s| - 1]]
  }

  /** Removing newlines works piece by piece: it keeps the order of everything else. */
  lemma {:induction false} StripNewlinesAppend(a: string, b: string)
    ensures StripNewlines(a + b) == StripNewlines(a) + StripNewlines(b)
    decreases |b|
  {
    if b == [] {
      assert a + b == a;
    } else {
      var b' := b[..|b| - 1];
      assert (a + b)[..|a + b| - 1] == a + b';
      StripNewlinesAppend(a, b');
    }
  }

  /** Only '\n' is removed: a string without one is left as it is. */
  lemma {:induction false} StripNewlinesKeepsOthers(s: string)
    requires '\n' !in s
    ensures StripNewlines(s) == s
  {
    if s != [] {
      StripNewlinesKeepsOthers(s[..|s| - 1]);
    }
  }

  /** `jsonschema.validate`: only a SchemaError becomes a BaseTapisPipelinesError; a ValidationError goes through as it is. */
  function Validated(data: Json, validate: Validator, invalidMsg: string): (r: Result<Json, Raised>)
    ensures r.Success? <==> validate(data) == Conforms
    ensures r.Success? ==> r.value == data
    ensures validate(data).SchemaError? ==>
      r == Failure(Pipelines(NewError(BaseTapisPipelinesError, Some(invalidMsg + validate(data).detail))))
    ensures validate(data).ValidationError? ==> r == Failure(ForeignError(validate(data).detail))
  {
    match validate(data)
    case Conforms => Success(data)
    case SchemaError(detail) => Failure(Pipelines(NewError(BaseTapisPipelinesError, Some(invalidMsg + detail))))
    case ValidationError(detail) => Failure(ForeignError(detail))
  }

  /** The quote `repr` puts around bytes: a double quote when they hold a single quote and no double quote. */
  function ReprQuote(b: seq<byte>): char
  {
    if 39 in b && 34 !in b then '"' else '\''
  }

  function HexDigit(n: int): char
    requires 0 <= n < 16
  {
    if n < 10 then (48 + n) as char else (87 + n) as char
  }

  /** One byte as `repr` writes it between the quotes: escaped, as a `\xhh` code, or as itself. */
  function ByteRepr(c: byte, quote: char): string
  {
    if c as int == quote as int || c == 92 then ['\\', c as int as char]
    else if c == 9 then "\\t"
    else if c == 10 then "\\n"
    else if c == 13 then "\\r"
    else if c < 32 || c >= 127 then ['\\', 'x', HexDigit(c as int / 16), HexDigit(c as int % 16)]
    else [c as int as char]
  }

  function ReprBody(b: seq<byte>, quote: char): string
    decreases |b|
  {
    if b == [] then "" else ByteRepr(b[0], quote) + ReprBody(b[1..], quote)
  }

  /** `str(b)` of a bytes object, which is its `repr`: `b`, a quote, each byte written out, the same quote. */
  function BytesRepr(b: seq<byte>): (s: string)
    ensures |s| >= 3 && s[..2] == ['b', ReprQuote(b)] && s[|s| - 1] == ReprQuote(b)
  {
    "b" + [ReprQuote(b)] + ReprBody(b, ReprQuote(b)) + [ReprQuote(b)]
  }

  /** Printable ASCII other than the quote and the backslash: what `repr` writes as itself. */
  predicate PlainText(b: seq<byte>)
  {
    forall i :: 0 <= i < |b| ==> 32 <= b[i] < 127 && b[i] != 39 && b[i] != 92
  }

  function AsText(b: seq<byte>): string
  {
    seq(|b|, i requires 0 <= i < |b| => b[i] as int as char)
  }

  lemma {:induction false} ReprBodyOfPlainText(b: seq<byte>)
    requires PlainText(b)
    ensures ReprBody(b, '\'') == AsText(b)
    decreases |b|
  {
    if b != [] {
      ReprBodyOfPlainText(b[1..]);
      assert AsText(b) == [b[0] as int as char] + AsText(b[1..]);
    }
  }

  /** Plain bytes show between single quotes as their own text. */
  lemma PlainBytesShowAsText(b: seq<byte>)
    requires PlainText(b)
    ensures BytesRepr(b) == "b'" + AsText(b) + "'"
  {
    ReprBodyOfPlainText(b);
  }

  /** The error a decode or parse failure of bytes `b` becomes; its message shows the bytes. */
  function LoadBytesError(b: seq<byte>, detail: string): Raised
  {
    Pipelines(NewError(BaseTapisPipelinesError,
      Some("Could not load JSON from bytes: " + BytesRepr(b) + "; expcetion: " + detail)))
  }

  /**
   * `Config.get_config_from_bytes(b, schema)`: decode, drop every '\n', parse,
   * validate. A decode or parse failure becomes a BaseTapisPipelinesError.
   */
  function GetConfigFromBytes(b: seq<byte>, codec: JsonCodec, validate: Validator): (r: Result<Json, Raised>)
    ensures codec.decodeUtf8(b).Failure? ==> r == Failure(LoadBytesError(b, codec.decodeUtf8(b).error))
    ensures r.Success? ==>
      && validate(r.value) == Conforms
      && codec.decodeUtf8(b).Success?
      && codec.loads(StripNewlines(codec.decodeUtf8(b).value)) == Success(r.value)
    ensures r.Failure? && r.error.Pipelines? ==> r.error.error.kind == BaseTapisPipelinesError && r.error.error.code == 400
    ensures r.Failure? && !r.error.Pipelines? ==> r.error.ForeignError?
  {
    match codec.decodeUtf8(b)
    case Failure(e) => Failure(LoadBytesError(b, e))
    case Success(text) =>
      match codec.loads(StripNewlines(text))
      case Failure(e) => Failure(LoadBytesError(b, e))
      case Success(data) => Validated(data, validate, "Config not valid; exception: ")
  }

  /**
   * Two byte strings whose texts differ only in their newlines load to the same
   * config; when that text does not parse, both raise the same parse error, each
   * message showing its own bytes.
   */
  lemma NewlinesAreIgnored(b1: seq<byte>, b2: seq<byte>, codec: JsonCodec, validate: Validator)
    requires codec.decodeUtf8(b1).Success? && codec.decodeUtf8(b2).Success?
    requires StripNewlines(codec.decodeUtf8(b1).value) == StripNewlines(codec.decodeUtf8(b2).value)
    ensures var parsed := codec.loads(StripNewlines(codec.decodeUtf8(b1).value));
      && (parsed.Success? ==> GetConfigFromBytes(b1, codec, validate) == GetConfigFromBytes(b2, codec, validate))
      && (parsed.Failure? ==>
            && GetConfigFromBytes(b1, codec, validate) == Failure(LoadBytesError(b1, parsed.error))
            && GetConfigFromBytes(b2, codec, validate) == Failure(LoadBytesError(b2, parsed.error)))
  {
  }

  function NotFoundError(path: string): Raised
  {
    Pipelines(NewError(BaseTapisPipelinesError,
      Some("Invalid configuration: could not load config file at path: " + path + "; file not found.")))
  }

  function LoadFileError(path: string, detail: string): Raised
  {
    Pipelines(NewError(BaseTapisPipelinesError,
      Some("Could not load configs from JSON file at: " + path + ". exception: " + detail)))
  }

  /**
   * `Config.get_config_from_file(path, schema)`: a path that does not exist is
   * an error before anything is read; then open, parse (newlines kept) and validate.
   */
  function GetConfigFromFile(path: string, fs: FileSystem, codec: JsonCodec, validate: Validator): (r: Result<Json, Raised>)
    ensures path !in fs ==> r == Failure(NotFoundError(path))
    ensures r.Success? ==>
      && path in fs && fs[path].Some?
      && codec.loads(fs[path].value) == Success(r.value)
      && validate(r.value) == Conforms
    ensures r.Failure? && r.error.Pipelines? ==> r.error.error.kind == BaseTapisPipelinesError && r.error.error.code == 400
    ensures r.Failure? && !r.error.Pipelines? ==> r.error.ForeignError?
    ensures path in fs && fs[path].Some? && codec.loads(fs[path].value).Success? ==>
      var data := codec.loads(fs[path].value).value;
      validate(data).SchemaError? ==>
        r == Failure(Pipelines(NewError(BaseTapisPipelinesError,
          Some("Config from file " + path + " not valid; json: " + Str(data) + "; exception: " + validate(data).detail))))
  {
    if path !in fs then Failure(NotFoundError(path))
    else match fs[path]
      case None => Failure(LoadFileError(path, "the file could not be opened"))
      case Some(text) =>
        match codec.loads(text)
        case Failure(e) => Failure(LoadFileError(path, e))
        case Success(data) => Validated(data, validate, "Config from file " + path + " not valid; json: " + Str(data) + "; exception: ")
  }

  /**
   * `Config(data)`: the dict built from the parsed value. A JSON object gives
   * its fields; an empty list or string gives an empty dict; anything else
   * makes `dict()` raise.
   */
  function ToDict(data: Json): (r: Result<map<string, Json>, Raised>)
    ensures data.JObj? ==> r == Success(data.fields)
    ensures r.Success? ==> data.JObj? || r.value == map[]
    ensures r.Failure? ==> !r.error.Pipelines?
  {
    match data
    case JObj(fields) => Success(fields)
    case JArr(items) => if items == [] then Success(map[]) else Failure(ForeignError("dict() could not convert the list"))
    case JStr(s) => if s == "" then Success(map[]) else Failure(ForeignError("dict() could not convert the string"))
    case JNull => Failure(TypeError("'NoneType' object is not iterable"))
    case JBool(_) => Failure(TypeError("'bool' object is not iterable"))
    case JNum(_) => Failure(TypeError("'int' object is not iterable"))
  }

  /**
   * `try: return Config(load(...)) except BaseTapisPipelinesError as e: raise Kind(e.msg)`:
   * a package error comes back as `kind` with the same msg and the default code;
   * anything else goes through unchanged.
   */
  function Wrapped(loaded: Result<Json, Raised>, kind: ErrorKind): (r: Result<map<string, Json>, Raised>)
    ensures loaded.Success? ==> r == ToDict(loaded.value)
    ensures loaded.Failure? && loaded.error.Pipelines? ==>
      r == Failure(Pipelines(PipelinesError(kind, loaded.error.error.msg, 400)))
    ensures loaded.Failure? && !loaded.error.Pipelines? ==> r == Failure(loaded.error)
  {
    match loaded
    case Success(data) => ToDict(data)
    case Failure(e) =>
      if Catches(BaseTapisPipelinesError, e) then Failure(Pipelines(NewError(kind, e.error.msg))) else Failure(e)
  }

  /** `parse_manifest_bytes`: load from bytes; package errors become ManifestFormatError. */
  function ParseManifestBytes(b: seq<byte>, codec: JsonCodec, manifestSchema: Validator): (r: Result<map<string, Json>, Raised>)
    ensures r == Wrapped(GetConfigFromBytes(b, codec, manifestSchema), ManifestFormatError)
    ensures r.Failure? && r.error.Pipelines? ==> r.error.error.kind == ManifestFormatError
  {
    Wrapped(GetConfigFromBytes(b, codec, manifestSchema), ManifestFormatError)
  }

  /** `parse_manifest_file`: load from a file; package errors become ManifestFormatError. */
  function ParseManifestFile(path: string, fs: FileSystem, codec: JsonCodec, manifestSchema: Validator): (r: Result<map<string, Json>, Raised>)
    ensures r == Wrapped(GetConfigFromFile(path, fs, codec, manifestSchema), ManifestFormatError)
    ensures path !in fs ==> r.Failure? && r.error.Pipelines? && r.error.error.kind == ManifestFormatError
    ensures r.Failure? && r.error.Pipelines? ==> r.error.error.kind == ManifestFormatError
  {
    Wrapped(GetConfigFromFile(path, fs, codec, manifestSchema), ManifestFormatError)
  }

  /** `parse_pipeline_config`: load from a file; package errors become PipelineConfigFormatError. */
  function ParsePipelineConfig(path: string, fs: FileSystem, codec: JsonCodec, configSchema: Validator): (r: Result<map<string, Json>, Raised>)
    ensures r == Wrapped(GetConfigFromFile(path, fs, codec, configSchema), PipelineConfigFormatError)
    ensures path !in fs ==> r.Failure? && r.error.Pipelines? && r.error.error.kind == PipelineConfigFormatError
    ensures r.Failure? && r.error.Pipelines? ==> r.error.error.kind == PipelineConfigFormatError
  {
    Wrapped(GetConfigFromFile(path, fs, codec, configSchema), PipelineConfigFormatError)
  }

  /** A file that does not exist gives the not-found message, re-raised as a ManifestFormatError with that same msg. */
  lemma MissingManifestFileMessage(path: string, fs: FileSystem, codec: JsonCodec, manifestSchema: Validator)
    requires path !in fs
    ensures ParseManifestFile(path, fs, codec, manifestSchema)
      == Failure(Pipelines(PipelinesError(ManifestFormatError, NotFoundError(path).error.msg, 400)))
  {
  }

  /** A config object that passes the schema comes back unchanged as the Config's dict. */
  lemma ValidConfigReturnedUnchanged(path: string, fs: FileSystem, codec: JsonCodec, configSchema: Validator, fields: map<string, Json>)
    requires path in fs && fs[path].Some? && codec.loads(fs[path].value) == Success(JObj(fields))
    requires configSchema(JObj(fields)) == Conforms
    ensures ParsePipelineConfig(path, fs, codec, configSchema) == Success(fields)
  {
  }
}
