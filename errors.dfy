/**
 * The exception classes of the pipelines package (core/errors.py), and the
 * exceptions of Python itself that the modelled code raises or lets through.
 */
module Errors {
  import opened Wrappers

  /** BaseTapisPipelinesError and its four subclasses, which add nothing but their class. */
  datatype ErrorKind =
    | BaseTapisPipelinesError
    | ManifestFormatError
    | PipelineConfigFormatError
    | PipelineConfigError
    | UnexpectedRuntimeError

  /** An instance of one of the classes above: its class, `msg` and `code`. */
  datatype PipelinesError = PipelinesError(kind: ErrorKind, msg: Option<string>, code: int)

  /** The HTTP code a new error carries when none is given. */
  const DefaultCode: int := 400

  /** `Kind(msg, code)`, with Python's defaults `msg=None, code=400`. */
  function NewError(kind: ErrorKind, msg: Option<string> := None, code: int := DefaultCode): (e: PipelinesError)
    ensures e.kind == kind && e.msg == msg && e.code == code
  {
    PipelinesError(kind, msg, code)
  }

  /** `isinstance(e, cls)`: every class is a subclass of the base and of itself only. */
  predicate IsInstance(e: PipelinesError, cls: ErrorKind)
  {
    cls == BaseTapisPipelinesError || e.kind == cls
  }

  /** An exception in flight: one of the package's own, or one raised by Python or a library. */
  datatype Raised =
    | Pipelines(error: PipelinesError)
    | KeyError(key: string)
    | AttributeError(name: string)
    | TypeError(reason: string)
    | IndexError(reason: string)
    | NotImplementedError(found: string)
    | SystemExit(status: int)
    | ForeignError(detail: string)

  /** Whether `except cls` catches `r`. */
  predicate Catches(cls: ErrorKind, r: Raised)
  {
    r.Pipelines? && IsInstance(r.error, cls)
  }

  /** A handler for the base class catches every error of the package, whatever its subclass. */
  lemma BaseHandlerCatchesAll(e: PipelinesError)
    ensures Catches(BaseTapisPipelinesError, Pipelines(e))
  {
  }

  /** A handler for a subclass catches that subclass only, and nothing raised outside the package. */
  lemma SubclassHandlerIsExact(cls: ErrorKind, r: Raised)
    requires cls != BaseTapisPipelinesError
    ensures Catches(cls, r) <==> r.Pipelines? && r.error.kind == cls
  {
  }

  /** With no arguments an error has no message and code 400. */
  lemma ConstructorDefaults(kind: ErrorKind)
    ensures NewError(kind).msg == None && NewError(kind).code == 400
  {
  }
}
