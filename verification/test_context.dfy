/** tests/test_context.py: the fuller context module, whose `set` generates
    an id when given `None` and returns what it stored, and which defines
    `clear_correlation_id`. */
module TestContext {
  import opened Options
  import opened TaskLocal
  import Uuids

  /** `get_correlation_id()`. */
  method GetCorrelationId(ctx: ContextVar, task: TaskId) returns (id: Option<string>)
    ensures id == ctx.Current(task)
  {
    id := ctx.Get(task);
  }

  /** `set_correlation_id(value=None)`: a given value is stored verbatim
      (even ""), `None` is replaced by `str(uuid.uuid4())`; the value stored
      is the value returned. `random` stands for the 128 random bits. */
  method SetCorrelationId(ctx: ContextVar, task: TaskId, value: Option<string>, random: nat) returns (stored: string)
    requires random < Uuids.UuidSpace
    modifies ctx
    ensures value.Some? ==> stored == value.value
    ensures value.None? ==> stored == Uuids.Uuid4Text(random) && |stored| == 36
    ensures ctx.Current(task) == Some(stored)
    ensures forall u :: u != task ==> ctx.Current(u) == old(ctx.Current(u))
  {
    if value.Some? {
      stored := value.value;
    } else {
      stored := Uuids.Uuid4Text(random);
    }
    ctx.Set(task, Some(stored));
  }

  /** `clear_correlation_id()`: sets the calling task's slot back to `None`. */
  method ClearCorrelationId(ctx: ContextVar, task: TaskId)
    modifies ctx
    ensures ctx.Current(task) == None
    ensures forall u :: u != task ==> ctx.Current(u) == old(ctx.Current(u))
  {
    ctx.Set(task, None);
  }

  /** Clearing twice leaves the same slot table as clearing once. */
  lemma ClearIdempotent(slots: map<TaskId, Option<string>>, t: TaskId)
    ensures Assign(Assign(slots, t, None), t, None) == Assign(slots, t, None)
  {
  }

  /** The module's own test sequence on a fresh context: nothing before a
      set, the returned value after it, nothing after a clear, and a
      generated id of the canonical 36-character form. */
  method SetGetClearScenario(task: TaskId, value: Option<string>, random: nat)
    returns (before: Option<string>, returned: string, seen: Option<string>, afterClear: Option<string>)
    requires random < Uuids.UuidSpace
    ensures before == None
    ensures seen == Some(returned)
    ensures value.Some? ==> returned == value.value
    ensures value.None? ==> |returned| == 36 && returned[14] == '4'
    ensures afterClear == None
  {
    var ctx := new ContextVar();
    before := GetCorrelationId(ctx, task);
    returned := SetCorrelationId(ctx, task, value, random);
    seen := GetCorrelationId(ctx, task);
    ClearCorrelationId(ctx, task);
    afterClear := GetCorrelationId(ctx, task);
  }
}
