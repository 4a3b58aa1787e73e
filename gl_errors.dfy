/**
 * GL error reporting in src/renderer.rs: the names `gl_error_to_string`
 * gives the error codes, and the drain loop of `print_gl_errors`. The driver's
 * error queue is a parameter: the codes `glGetError` would return, in order.
 */
module GlErrors {
  /** `GL_NO_ERROR`. */
  const NO_ERROR: nat := 0

  /** The names `gl_error_to_string` knows. */
  const GL_ERROR_NAMES: map<nat, string> := map[
    0x0500 := "GL_INVALID_ENUM",
    0x0501 := "GL_INVALID_VALUE",
    0x0502 := "GL_INVALID_OPERATION",
    0x0503 := "GL_STACK_OVERFLOW",
    0x0504 := "GL_STACK_UNDERFLOW",
    0x0505 := "GL_OUT_OF_MEMORY",
    0x0506 := "GL_INVALID_FRAMEBUFFER_OPERATION",
    0x0507 := "GL_CONTEXT_LOST",
    0x0531 := "GL_TABLE_TOO_LARGE"
  ]

  function GlErrorToString(error: nat): (name: string)
    ensures name == if error in GL_ERROR_NAMES then GL_ERROR_NAMES[error] else "unknown error"
  {
    match error
    case 0x0500 => "GL_INVALID_ENUM"
    case 0x0501 => "GL_INVALID_VALUE"
    case 0x0502 => "GL_INVALID_OPERATION"
    case 0x0503 => "GL_STACK_OVERFLOW"
    case 0x0504 => "GL_STACK_UNDERFLOW"
    case 0x0505 => "GL_OUT_OF_MEMORY"
    case 0x0506 => "GL_INVALID_FRAMEBUFFER_OPERATION"
    case 0x0507 => "GL_CONTEXT_LOST"
    case 0x0531 => "GL_TABLE_TOO_LARGE"
    case _ => "unknown error"
  }

  /** A printed name identifies the code: known codes get distinct names, none of them "unknown error". */
  lemma GlErrorNamesIdentifyCodes(e1: nat, e2: nat)
    requires e1 in GL_ERROR_NAMES
    ensures GlErrorToString(e1) != "unknown error"
    ensures GlErrorToString(e1) == GlErrorToString(e2) ==> e1 == e2
  {
  }

  /** What the `k`-th `GetError` call returns when the flags `pending` are raised. */
  function GetError(pending: seq<nat>, k: nat): nat
  {
    if k < |pending| then pending[k] else NO_ERROR
  }

  /** The errors `print_gl_errors` reports: those up to the first `NO_ERROR`. */
  function ReportedErrors(pending: seq<nat>): (r: seq<nat>)
    ensures |r| <= |pending| && r == pending[..|r|]
    ensures NO_ERROR !in r
    ensures |r| < |pending| ==> pending[|r|] == NO_ERROR
  {
    if pending == [] || pending[0] == NO_ERROR then [] else [pending[0]] + ReportedErrors(pending[1..])
  }

  /** One printed line, `GL error @ {context}: {name}`. */
  datatype ErrorLine = GlErrorLine(context: string, name: string)

  function LineFor(context: string, error: nat): ErrorLine
  {
    GlErrorLine(context, GlErrorToString(error))
  }

  /**
   * `print_gl_errors`: call `GetError` until it reports `NO_ERROR`, producing
   * one line per error, in order.
   */
  method PrintGlErrors(context: string, pending: seq<nat>) returns (lines: seq<ErrorLine>)
    ensures |lines| == |ReportedErrors(pending)|
    ensures forall i :: 0 <= i < |lines| ==> lines[i] == LineFor(context, ReportedErrors(pending)[i])
  {
    ghost var reported := ReportedErrors(pending);
    lines := [];
    var k := 0;
    var error := GetError(pending, k);
    while error != NO_ERROR
      invariant |lines| == k <= |reported|
      invariant error == GetError(pending, k)
      invariant forall i :: 0 <= i < k ==> lines[i] == LineFor(context, reported[i])
      decreases |pending| - k
    {
      assert k < |reported| && error == reported[k];
      lines := lines + [LineFor(context, error)];
      k := k + 1;
      error := GetError(pending, k);
    }
  }
}
