/** Name resolution of `from lumen_logger.context import ...` in
    lumen_logger/middleware.py: the import succeeds only when every imported
    name is defined at module level in lumen_logger/context.py. */
module Imports {

  /** Module-level names of lumen_logger/context.py as written. */
  const ContextModuleNames: set<string> :=
    {"contextvars", "correlation_id_ctx", "set_correlation_id", "get_correlation_id"}

  /** The same module once it also defines `clear_correlation_id`, as
      `Context.ClearCorrelationId` does. */
  const CorrectedContextModuleNames: set<string> := ContextModuleNames + {"clear_correlation_id"}

  /** Names lumen_logger/middleware.py imports from lumen_logger.context. */
  const MiddlewareImports: set<string> := {"set_correlation_id", "clear_correlation_id"}

  /** The names an import asks for that the module does not define; a
      non-empty result is Python's `ImportError`. */
  function Unresolved(defined: set<string>, wanted: set<string>): (missing: set<string>)
    ensures missing == {} <==> wanted <= defined
    ensures missing <= wanted && missing !! defined
  {
    var missing := wanted - defined;
    assert forall n :: n in wanted && n !in defined ==> n in missing;
    missing
  }

  /** As written, importing the middleware fails: `clear_correlation_id`
      is missing from lumen_logger/context.py. */
  lemma MiddlewareImportFailsAsWritten()
    ensures Unresolved(ContextModuleNames, MiddlewareImports) == {"clear_correlation_id"}
  {
  }

  /** With `clear_correlation_id` defined, every imported name resolves. */
  lemma MiddlewareImportResolvesCorrected()
    ensures Unresolved(CorrectedContextModuleNames, MiddlewareImports) == {}
  {
  }
}
