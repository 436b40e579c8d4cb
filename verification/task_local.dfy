/** The task-local slot behind `contextvars.ContextVar("correlation_id",
    default=None)`: each logical task (an asyncio task, a request) sees its
    own value, and a task that never set one sees the default `None`. */
module TaskLocal {
  import opened Options

  /** An abstract identity for a logical execution unit. */
  type TaskId = nat

  /** What task `t` reads from the slot table: its own entry, or the
      default `None`. */
  function Lookup(slots: map<TaskId, Option<string>>, t: TaskId): Option<string>
  {
    if t in slots then slots[t] else None
  }

  /** `ContextVar.set(value)` performed by task `t`. */
  function Assign(slots: map<TaskId, Option<string>>, t: TaskId, value: Option<string>): (r: map<TaskId, Option<string>>)
    ensures Lookup(r, t) == value
    ensures forall u :: u != t ==> Lookup(r, u) == Lookup(slots, u)
  {
    slots[t := value]
  }

  class ContextVar {
    var slots: map<TaskId, Option<string>>

    /** The value task `t` currently reads. */
    function Current(t: TaskId): Option<string>
      reads this
    {
      Lookup(slots, t)
    }

    constructor ()
      ensures forall t :: Current(t) == None
    {
      slots := map[];
    }

    /** `ContextVar.set(value)` in task `t`: only `t`'s entry changes. */
    method Set(t: TaskId, value: Option<string>)
      modifies this
      ensures slots == Assign(old(slots), t, value)
      ensures Current(t) == value
      ensures forall u :: u != t ==> Current(u) == old(Current(u))
    {
      slots := slots[t := value];
    }

    /** `ContextVar.get()` in task `t`: total, and reads only. */
    method Get(t: TaskId) returns (value: Option<string>)
      ensures value == Current(t)
      ensures value.Some? ==> t in slots && slots[t] == value
    {
      value := if t in slots then slots[t] else None;
    }
  }

  // ---------------------------------------------------------------------
  // Interleaved execution: a run of `set` calls issued by many tasks in any
  // order, and what each task sees at the end.
  // ---------------------------------------------------------------------

  datatype Write = Write(task: TaskId, value: Option<string>)

  /** Apply the writes in order, as the interleaved tasks issued them. */
  function Replay(slots: map<TaskId, Option<string>>, writes: seq<Write>): map<TaskId, Option<string>>
    decreases |writes|
  {
    if writes == [] then slots
    else Replay(Assign(slots, writes[0].task, writes[0].value), writes[1..])
  }

  /** The writes issued by task `t`, in their order. */
  function OwnWrites(writes: seq<Write>, t: TaskId): (own: seq<Write>)
    ensures |own| <= |writes|
    ensures forall i :: 0 <= i < |own| ==> own[i].task == t
    decreases |writes|
  {
    if writes == [] then []
    else (if writes[0].task == t then [writes[0]] else []) + OwnWrites(writes[1..], t)
  }

  /** Reference meaning of a run for one task: the value of its own latest
      write, or what it saw before the run when it wrote nothing. */
  function LatestOwn(writes: seq<Write>, t: TaskId, before: Option<string>): Option<string>
  {
    var own := OwnWrites(writes, t);
    if own == [] then before else own[|own| - 1].value
  }

  /** After any interleaving, each task reads exactly its own latest write. */
  lemma {:induction false} ReplaySeesLatestOwn(slots: map<TaskId, Option<string>>, writes: seq<Write>, t: TaskId)
    ensures Lookup(Replay(slots, writes), t) == LatestOwn(writes, t, Lookup(slots, t))
    decreases |writes|
  {
    if writes != [] {
      var w, rest := writes[0], writes[1..];
      var next := Assign(slots, w.task, w.value);
      ReplaySeesLatestOwn(next, rest, t);
      var own := OwnWrites(writes, t);
      var ownRest := OwnWrites(rest, t);
      if w.task == t {
        assert own == [w] + ownRest;
      } else {
        assert own == ownRest;
      }
    }
  }

  /** Filtering the writes down to one task's keeps that task's writes. */
  lemma {:induction false} OwnWritesIdempotent(writes: seq<Write>, t: TaskId)
    ensures OwnWrites(OwnWrites(writes, t), t) == OwnWrites(writes, t)
    decreases |writes|
  {
    if writes != [] {
      OwnWritesIdempotent(writes[1..], t);
      var head := if writes[0].task == t then [writes[0]] else [];
      OwnWritesAppend(head, OwnWrites(writes[1..], t), t);
      if writes[0].task == t {
        assert OwnWrites(head, t) == head by {
          assert head[1..] == [];
        }
      }
    }
  }

  lemma {:induction false} OwnWritesAppend(a: seq<Write>, b: seq<Write>, t: TaskId)
    ensures OwnWrites(a + b, t) == OwnWrites(a, t) + OwnWrites(b, t)
    decreases |a|
  {
    if a != [] {
      assert (a + b)[1..] == a[1..] + b;
      OwnWritesAppend(a[1..], b, t);
    } else {
      assert a + b == b;
    }
  }

  /** Isolation: writes by other tasks, however interleaved, never change
      what task `t` reads; a run behaves for `t` as if `t` ran alone. */
  lemma Isolation(slots: map<TaskId, Option<string>>, writes: seq<Write>, t: TaskId)
    ensures Lookup(Replay(slots, writes), t) == Lookup(Replay(slots, OwnWrites(writes, t)), t)
  {
    ReplaySeesLatestOwn(slots, writes, t);
    ReplaySeesLatestOwn(slots, OwnWrites(writes, t), t);
    OwnWritesIdempotent(writes, t);
  }

  /** A task whose latest write installs `None` (a cleared request) reads
      `None` afterwards, whatever the other tasks did meanwhile. */
  lemma ClearedTaskReadsNone(slots: map<TaskId, Option<string>>, writes: seq<Write>, t: TaskId)
    requires writes != [] && writes[|writes| - 1] == Write(t, None)
    ensures Lookup(Replay(slots, writes), t) == None
  {
    ReplaySeesLatestOwn(slots, writes, t);
    var n := |writes| - 1;
    assert writes == writes[..n] + [writes[n]];
    OwnWritesAppend(writes[..n], [writes[n]], t);
    assert OwnWrites([writes[n]], t) == [writes[n]] by {
      assert [writes[n]][1..] == [];
    }
  }
}
