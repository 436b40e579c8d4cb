/** lumen_logger/context.py: the module-level `correlation_id_ctx` (a
    `ContextVar` with default `None`) and its two accessors, plus the
    `clear_correlation_id` that lumen_logger/middleware.py imports from it. */
module Context {
  import opened Options
  import opened TaskLocal

  /** `set_correlation_id(value)`: stores `value` verbatim, unvalidated,
      for the calling task and no other. */
  method SetCorrelationId(ctx: ContextVar, task: TaskId, value: string)
    modifies ctx
    ensures ctx.Current(task) == Some(value)
    ensures forall u :: u != task ==> ctx.Current(u) == old(ctx.Current(u))
  {
    ctx.Set(task, Some(value));
  }

  /** `get_correlation_id()`: the calling task's value, `None` if it never
      set one; it never fails and changes nothing. */
  method GetCorrelationId(ctx: ContextVar, task: TaskId) returns (id: Option<string>)
    ensures id == ctx.Current(task)
    ensures id.Some? ==> task in ctx.slots
  {
    id := ctx.Get(task);
  }

  /** `clear_correlation_id()` as this module needs it for the middleware's
      import to resolve: puts the calling task back to `None`. */
  method ClearCorrelationId(ctx: ContextVar, task: TaskId)
    modifies ctx
    ensures ctx.Current(task) == None
    ensures forall u :: u != task ==> ctx.Current(u) == old(ctx.Current(u))
  {
    ctx.Set(task, None);
  }

  /** A run of the module's operations in one fresh context: before any
      set a task reads `None`, a second set overwrites the first, and a set
      in another task is not seen. */
  method SetGetScenario(a: TaskId, b: TaskId, first: string, second: string, other: string)
    returns (before: Option<string>, afterSets: Option<string>, afterClear: Option<string>)
    requires a != b
    ensures before == None
    ensures afterSets == Some(second)
    ensures afterClear == None
  {
    var ctx := new ContextVar();
    before := GetCorrelationId(ctx, a);
    SetCorrelationId(ctx, a, first);
    SetCorrelationId(ctx, a, second);
    SetCorrelationId(ctx, b, other);
    afterSets := GetCorrelationId(ctx, a);
    ClearCorrelationId(ctx, a);
    afterClear := GetCorrelationId(ctx, a);
  }
}
