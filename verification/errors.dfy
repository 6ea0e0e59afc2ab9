/** The builder's exception hierarchy (builder/errors.py) and the few Python
    built-in exceptions the wall code can raise, together with their string
    rendering. An exception is a value here: operations that raise in the
    source return an `Err`/`Fail` carrying one of these. */
module Errors {

  /** The class of an exception. The first three are the builder's own
      classes; `BuilderConfig` and `BuilderValidation` subclass `Builder`. */
  datatype Kind =
    | Builder
    | BuilderConfig
    | BuilderValidation
    | PyTypeError
    | PyValueError
    | PyMemoryError
    | PyAttributeError

  /** An exception instance: its class, its message and its extra context.
      Python built-in exceptions carry no context (`info` is empty). */
  datatype Error = Error(kind: Kind, message: string, info: string)

  /** `isinstance(e, BuilderError)`: what `except BuilderError` catches. */
  predicate IsBuilderError(e: Error) {
    e.kind == Builder || e.kind == BuilderConfig || e.kind == BuilderValidation
  }

  /** `str(e)`: the message, followed by the context in parentheses when
      there is any context. */
  function Render(e: Error): (s: string)
    ensures e.info == "" ==> s == e.message
    ensures e.info != "" ==> |s| == |e.message| + |e.info| + 3
    ensures e.info != "" ==> s[..|e.message|] == e.message && s[|s| - 1] == ')'
    ensures e.info != "" ==> s[|e.message|..|e.message| + 2] == " ("
    ensures e.info != "" ==> s[|e.message| + 2..|s| - 1] == e.info
  {
    if e.info != "" then e.message + " (" + e.info + ")" else e.message
  }

  /** `BuilderError(message, info="")`. */
  function MakeBuilderError(message: string, info: string := ""): Error {
    Error(Builder, message, info)
  }

  /** `BuilderConfigError(message="Invalid configuration", info="")`. */
  function ConfigError(message: string := "Invalid configuration", info: string := ""): Error {
    Error(BuilderConfig, message, info)
  }

  /** `BuilderValidationError(message="Validation failed", info="")`. */
  function ValidationError(message: string := "Validation failed", info: string := ""): Error {
    Error(BuilderValidation, message, info)
  }

  /** A Python built-in exception raised with a single message argument. */
  function PyError(kind: Kind, message: string): Error
    requires kind !in {Builder, BuilderConfig, BuilderValidation}
  {
    Error(kind, message, "")
  }

  /** Recovers the context from a rendered validation error: strips the
      "Validation failed (" prefix and the closing parenthesis. */
  function ValidationInfo(rendered: string): (info: string)
  {
    var prefix := "Validation failed (";
    if |rendered| > |prefix| && rendered[..|prefix|] == prefix && rendered[|rendered| - 1] == ')'
    then rendered[|prefix|..|rendered| - 1]
    else ""
  }

  /** A validation error with context X displays as "Validation failed (X)",
      and the context can be read back from that display: two validation
      errors display alike only if they carry the same context. */
  lemma ValidationRenderRoundTrip(info: string)
    ensures Render(ValidationError(info := info)) ==
            if info == "" then "Validation failed" else "Validation failed (" + info + ")"
    ensures ValidationInfo(Render(ValidationError(info := info))) == info
  {
    var s := Render(ValidationError(info := info));
    if info != "" {
      assert s == "Validation failed (" + info + ")";
      assert s[..19] == "Validation failed (";
    }
  }

  /** Rendering a builder error never loses its message: the message is a
      prefix of the display, and the display is exactly the message when the
      context is empty (the default). */
  lemma RenderKeepsMessage(message: string, info: string)
    ensures Render(MakeBuilderError(message)) == message
    ensures |Render(MakeBuilderError(message, info))| >= |message|
    ensures Render(MakeBuilderError(message, info))[..|message|] == message
  {
  }

  /** The default messages of the two subclasses, and their membership in the
      base class, so a catch-all `except BuilderError` sees them. */
  lemma SubclassDefaults(info: string)
    ensures Render(ConfigError()) == "Invalid configuration"
    ensures Render(ValidationError()) == "Validation failed"
    ensures IsBuilderError(ConfigError(info := info)) && IsBuilderError(ValidationError(info := info))
    ensures ConfigError(info := info).kind != ValidationError(info := info).kind
  {
  }

  /** The error `WallManager.build` re-raises for any exception escaping its
      body: a plain builder error whose message embeds the original display. */
  function WrapBuildFailure(e: Error): (w: Error)
    ensures IsBuilderError(w) && w.kind == Builder && w.info == ""
    ensures |Render(w)| == 19 + |Render(e)|
    ensures Render(w)[..19] == "An error occurred: "
    ensures Render(w)[19..] == Render(e)
  {
    MakeBuilderError("An error occurred: " + Render(e))
  }
}

/** Success/failure carriers used by every operation that can raise. */
module Outcomes {
  import opened Errors

  datatype Option<+T> = None | Some(value: T) {
    function GetOr(default: T): T {
      match this
      case Some(v) => v
      case None => default
    }
  }

  /** A value, or the exception the source would have raised. */
  datatype Result<+T> = Ok(value: T) | Err(error: Error)

  /** A check that either returns normally or raises. */
  datatype Outcome = Pass | Fail(error: Error) {
    /** Runs `next` only if this check passed: sequential statements that
        each may raise. */
    function Then(next: Outcome): (r: Outcome)
      ensures r.Pass? <==> Pass? && next.Pass?
      ensures Fail? ==> r == this
    {
      if Fail? then this else next
    }
  }
}
