/** `PostgresSchemaEditor` as an object whose fields its methods update: the
    `execute` it currently routes statements through, the recorder lists of
    `_extract_sql`, the log of what happened and its side effects. Every
    method is proved against the function of module `EditorSpec` that says
    what it does to that state. */
module Editor {
  import opened Python
  import opened Partitioning
  import opened PartitionSql
  import opened EditorSpec

  class SchemaEditor {
    /** The backend's `quote_name`. */
    const quote: string -> string
    /** The values of the `PostgresPartitioningMethod` members. */
    const methods: set<string>
    /** The base editor's operations and the side effects' hooks. */
    const engine: Engine

    var execute: Executor
    var recorders: seq<seq<Value>>
    var log: seq<Event>
    var sideEffects: seq<SideEffect>

    /** Every side effect holds the real `execute` and the editor's
        `quote_name`, and an installed interceptor has its recorder. */
    ghost predicate Valid()
      reads this
    {
      && (forall i :: 0 <= i < |sideEffects| ==>
            sideEffects[i].execute == RealExecute && sideEffects[i].quoteName == Some(quote))
      && (execute.Intercept? ==> execute.recorder < |recorders|)
    }

    function State(): EditorState
      reads this
    {
      EditorState(execute, recorders, log)
    }

    /** `__init__`: each side effect, in order, is handed the editor's
        `execute` (the real one: nothing is intercepted yet) and its
        `quote_name`. */
    constructor (quote: string -> string, methods: set<string>, engine: Engine, effects: seq<SideEffect>)
      ensures Valid()
      ensures State() == EditorState(RealExecute, [], [])
      ensures this.quote == quote && this.methods == methods && this.engine == engine
      ensures |sideEffects| == |effects|
      ensures forall i :: 0 <= i < |effects| ==>
                sideEffects[i] == effects[i].(execute := RealExecute, quoteName := Some(quote))
    {
      this.quote := quote;
      this.methods := methods;
      this.engine := engine;
      execute := RealExecute;
      recorders := [];
      log := [];
      sideEffects := effects;
      new;
      var i := 0;
      while i < |sideEffects|
        invariant 0 <= i <= |sideEffects| == |effects|
        invariant execute == RealExecute && recorders == [] && log == []
        invariant this.quote == quote && this.methods == methods && this.engine == engine
        invariant forall j :: 0 <= j < i ==>
                    sideEffects[j] == effects[j].(execute := RealExecute, quoteName := Some(quote))
        invariant forall j :: i <= j < |effects| ==> sideEffects[j] == effects[j]
      {
        sideEffects := sideEffects[i := sideEffects[i].(execute := execute, quoteName := Some(this.quote))];
        i := i + 1;
      }
    }

    /** One call through `ex`: the real `execute` or an interceptor. */
    method ExecuteVia(ex: Executor, args: seq<Value>)
      modifies this
      ensures State() == ExecuteWith(old(State()), ex, args)
      ensures sideEffects == old(sideEffects)
    {
      match ex
      case RealExecute =>
        log := log + [Executed(args)];
      case Intercept(id) =>
        if id < |recorders| {
          recorders := recorders[id := recorders[id] + args];
        }
    }

    /** `self.execute(*args)`: through whatever `execute` is now. */
    method Execute(args: seq<Value>)
      modifies this
      ensures State() == ExecuteWith(old(State()), old(execute), args)
      ensures sideEffects == old(sideEffects)
    {
      ExecuteVia(execute, args);
    }

    /** The `execute` calls of a base operation or a hook, in order. */
    method RunStatements(ex: Executor, calls: seq<seq<Value>>)
      modifies this
      ensures State() == RunStmts(old(State()), ex, calls)
      ensures sideEffects == old(sideEffects)
    {
      var i := 0;
      while i < |calls|
        invariant 0 <= i <= |calls|
        invariant RunStmts(old(State()), ex, calls) == RunStmts(State(), ex, calls[i..])
        invariant sideEffects == old(sideEffects)
      {
        assert calls[i..][0] == calls[i] && calls[i..][1..] == calls[i + 1..];
        ExecuteVia(ex, calls[i]);
        i := i + 1;
      }
    }

    /** `super().<op>(...)`. */
    method CallBase(op: Op) returns (o: Outcome)
      requires Valid()
      modifies this
      ensures Step(o, State()) == BaseSpec(old(State()), engine, op)
      ensures Valid()
      ensures sideEffects == old(sideEffects)
    {
      BaseRoutesThroughExecute(State(), engine, op);
      var b := engine.base(op);
      log := log + [BaseCall(op)];
      RunStatements(execute, b.calls);
      o := if b.raises then Failed(BaseRaised) else Done;
    }

    /** `side_effect.<op>(...)`: the hook's statements go through the
        `execute` the side effect holds, not the editor's current one. */
    method CallHook(h: SideEffect, op: Op) returns (o: Outcome)
      modifies this
      ensures Step(o, State()) == HookSpec(old(State()), engine, h, op)
      ensures sideEffects == old(sideEffects)
    {
      var b := engine.hook(h, op);
      log := log + [HookCall(h.name, op)];
      RunStatements(h.execute, b.calls);
      o := if b.raises then Failed(HookRaised(h.name)) else Done;
    }

    /** The loop over `self.side_effects` in each override; a raise leaves
        the loop and the override. */
    method RunSideEffects(op: Op) returns (o: Outcome)
      requires Valid()
      modifies this
      ensures Step(o, State()) == HooksSpec(old(State()), engine, sideEffects, op)
      ensures Valid()
      ensures sideEffects == old(sideEffects)
    {
      HooksKeepExecutor(State(), engine, sideEffects, op);
      var i := 0;
      while i < |sideEffects|
        invariant 0 <= i <= |sideEffects|
        invariant sideEffects == old(sideEffects)
        invariant HooksSpec(old(State()), engine, sideEffects, op)
               == HooksSpec(State(), engine, sideEffects[i..], op)
      {
        var h := sideEffects[i];
        assert sideEffects[i..][0] == h && sideEffects[i..][1..] == sideEffects[i + 1..];
        o := CallHook(h, op);
        if o.Failed? {
          return;
        }
        i := i + 1;
      }
      o := Done;
    }

    /** `create_model`: the base operation, then the side effects. */
    method CreateModel(model: ModelMeta) returns (o: Outcome)
      requires Valid()
      modifies this
      ensures Step(o, State()) == DispatchSpec(old(State()), engine, sideEffects, EditorSpec.CreateModel(model))
      ensures Valid()
      ensures sideEffects == old(sideEffects)
    {
      DispatchKeepsExecutor(State(), engine, sideEffects, EditorSpec.CreateModel(model));
      o := CallBase(EditorSpec.CreateModel(model));
      if o.Done? {
        o := RunSideEffects(EditorSpec.CreateModel(model));
      }
    }

    /** `delete_model`: the side effects, then the base operation. */
    method DeleteModel(model: ModelMeta) returns (o: Outcome)
      requires Valid()
      modifies this
      ensures Step(o, State()) == DispatchSpec(old(State()), engine, sideEffects, EditorSpec.DeleteModel(model))
      ensures Valid()
      ensures sideEffects == old(sideEffects)
    {
      DispatchKeepsExecutor(State(), engine, sideEffects, EditorSpec.DeleteModel(model));
      o := RunSideEffects(EditorSpec.DeleteModel(model));
      if o.Done? {
        o := CallBase(EditorSpec.DeleteModel(model));
      }
    }

    /** `alter_db_table`: the base operation, then the side effects. */
    method AlterDbTable(model: ModelMeta, oldTable: string, newTable: string) returns (o: Outcome)
      requires Valid()
      modifies this
      ensures Step(o, State())
           == DispatchSpec(old(State()), engine, sideEffects, EditorSpec.AlterDbTable(model, oldTable, newTable))
      ensures Valid()
      ensures sideEffects == old(sideEffects)
    {
      DispatchKeepsExecutor(State(), engine, sideEffects, EditorSpec.AlterDbTable(model, oldTable, newTable));
      o := CallBase(EditorSpec.AlterDbTable(model, oldTable, newTable));
      if o.Done? {
        o := RunSideEffects(EditorSpec.AlterDbTable(model, oldTable, newTable));
      }
    }

    /** `add_field`: the base operation, then the side effects. */
    method AddField(model: ModelMeta, field: string) returns (o: Outcome)
      requires Valid()
      modifies this
      ensures Step(o, State()) == DispatchSpec(old(State()), engine, sideEffects, EditorSpec.AddField(model, field))
      ensures Valid()
      ensures sideEffects == old(sideEffects)
    {
      DispatchKeepsExecutor(State(), engine, sideEffects, EditorSpec.AddField(model, field));
      o := CallBase(EditorSpec.AddField(model, field));
      if o.Done? {
        o := RunSideEffects(EditorSpec.AddField(model, field));
      }
    }

    /** `remove_field`: the side effects, then the base operation. */
    method RemoveField(model: ModelMeta, field: string) returns (o: Outcome)
      requires Valid()
      modifies this
      ensures Step(o, State()) == DispatchSpec(old(State()), engine, sideEffects, EditorSpec.RemoveField(model, field))
      ensures Valid()
      ensures sideEffects == old(sideEffects)
    {
      DispatchKeepsExecutor(State(), engine, sideEffects, EditorSpec.RemoveField(model, field));
      o := RunSideEffects(EditorSpec.RemoveField(model, field));
      if o.Done? {
        o := CallBase(EditorSpec.RemoveField(model, field));
      }
    }

    /** `alter_field`: the base operation, then the side effects. */
    method AlterField(model: ModelMeta, oldField: string, newField: string, strict: bool) returns (o: Outcome)
      requires Valid()
      modifies this
      ensures Step(o, State())
           == DispatchSpec(old(State()), engine, sideEffects, EditorSpec.AlterField(model, oldField, newField, strict))
      ensures Valid()
      ensures sideEffects == old(sideEffects)
    {
      DispatchKeepsExecutor(State(), engine, sideEffects, EditorSpec.AlterField(model, oldField, newField, strict));
      o := CallBase(EditorSpec.AlterField(model, oldField, newField, strict));
      if o.Done? {
        o := RunSideEffects(EditorSpec.AlterField(model, oldField, newField, strict));
      }
    }

    /** Calls the override that `op` names (the bound method handed to
        `_extract_sql`). */
    method Perform(op: Op) returns (o: Outcome)
      requires Valid()
      modifies this
      ensures Step(o, State()) == DispatchSpec(old(State()), engine, sideEffects, op)
      ensures Valid()
      ensures sideEffects == old(sideEffects)
    {
      match op
      case CreateModel(model) => o := CreateModel(model);
      case DeleteModel(model) => o := DeleteModel(model);
      case AlterDbTable(model, oldTable, newTable) => o := AlterDbTable(model, oldTable, newTable);
      case AddField(model, field) => o := AddField(model, field);
      case RemoveField(model, field) => o := RemoveField(model, field);
      case AlterField(model, oldField, newField, strict) => o := AlterField(model, oldField, newField, strict);
    }

    /** `_extract_sql`: the current `execute` is saved and replaced by an
        interceptor over a fresh recorder while the operation runs; it is
        put back only when the operation returns normally. */
    method ExtractSql(op: Op) returns (r: Result<seq<Value>, Failure>)
      requires Valid()
      modifies this
      ensures Valid()
      ensures Extracted(r, State()) == ExtractSpec(old(State()), engine, sideEffects, op)
      ensures sideEffects == old(sideEffects)
    {
      var saved := execute;
      var id := |recorders|;
      recorders := recorders + [[]];
      execute := Intercept(id);
      DispatchKeepsExecutor(State(), engine, sideEffects, op);
      var o := Perform(op);
      if o.Failed? {
        return Err(o.failure);
      }
      execute := saved;
      r := Ok(recorders[id]);
    }

    /** `create_partitioned_model`. */
    method CreatePartitionedModel(model: ModelMeta) returns (o: Outcome)
      requires Valid()
      modifies this
      ensures Valid()
      ensures Step(o, State()) == CreatePartitionedSpec(old(State()), engine, sideEffects, quote, methods, model)
      ensures sideEffects == old(sideEffects)
    {
      var p := PartitioningPropertiesForModel(model, methods);
      if p.Err? {
        return Failed(Misconfigured(p.error));
      }
      var captured := ExtractSql(EditorSpec.CreateModel(model));
      if captured.Err? {
        return Failed(captured.error);
      }
      var args := captured.value;
      if |args| != 2 {
        return Failed(UnpackFailed(|args|));
      }
      if !args[0].PyStr? {
        return Failed(NotText);
      }
      var sql := PartitionedTableSql(quote, args[0].s, model.pk, p.value.methodName, p.value.key);
      Execute([PyStr(sql), args[1]]);
      o := Done;
    }

    /** `add_range_partition`. */
    method AddRangePartition(model: ModelMeta, name: string, fromValues: Value, toValues: Value)
      returns (o: Outcome)
      requires Valid()
      modifies this
      ensures Valid()
      ensures Step(o, State()) == AddRangeSpec(old(State()), quote, methods, model, name, fromValues, toValues)
      ensures sideEffects == old(sideEffects)
    {
      var p := PartitioningPropertiesForModel(model, methods);
      if p.Err? {
        return Failed(Misconfigured(p.error));
      }
      var sql := RangePartitionSql(quote(name), quote(model.dbTable));
      Execute([PyStr(sql), PyTuple([fromValues, toValues])]);
      o := Done;
    }

    /** `add_list_partition`. */
    method AddListPartition(model: ModelMeta, name: string, values: seq<Value>) returns (o: Outcome)
      requires Valid()
      modifies this
      ensures Valid()
      ensures Step(o, State()) == AddListSpec(old(State()), quote, methods, model, name, values)
      ensures sideEffects == old(sideEffects)
    {
      var p := PartitioningPropertiesForModel(model, methods);
      if p.Err? {
        return Failed(Misconfigured(p.error));
      }
      var sql := ListPartitionSql(quote(name), quote(model.dbTable), |values|);
      Execute([PyStr(sql), PyList(values)]);
      o := Done;
    }

    /** `add_default_partition`. */
    method AddDefaultPartition(model: ModelMeta, name: string) returns (o: Outcome)
      requires Valid()
      modifies this
      ensures Valid()
      ensures Step(o, State()) == AddDefaultSpec(old(State()), quote, methods, model, name)
      ensures sideEffects == old(sideEffects)
    {
      var p := PartitioningPropertiesForModel(model, methods);
      if p.Err? {
        return Failed(Misconfigured(p.error));
      }
      var sql := DefaultPartitionSql(quote(name), quote(model.dbTable));
      Execute([PyStr(sql)]);
      o := Done;
    }
  }
}
