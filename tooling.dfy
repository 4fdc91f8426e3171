/**
 * The LLM tools: handler choice by SysML type, the create/update/delete
 * closures `make_tools` builds around a client, and `execute_tool`, which
 * normalises a tool call's arguments, invokes the tool and turns the
 * outcome into a log message.
 */
module Tooling {
  import opened Json
  import opened SysmlClient
  import PyText
  import BaseHandler
  import GenericHandler
  import PartusageHandler

  type Registry = map<string, BaseHandler.Handler>

  /** A fresh, unregistered `GenericHandler()`. */
  const DefaultHandler: BaseHandler.Handler := BaseHandler.Handler(BaseHandler.GenericHandlerClass, None)

  /** `_choose_handler(t)`: `TYPE_HANDLERS.get(t, GenericHandler())`. A list or
      dict cannot be looked up in a dict and raises TypeError. */
  function ChooseHandler(handlers: Registry, t: Json): (r: Result<BaseHandler.Handler>)
    ensures !Hashable(t) ==> r == Err(TypeError)
    ensures t.JStr? && t.s in handlers ==> r == Ok(handlers[t.s])
    ensures Hashable(t) && !(t.JStr? && t.s in handlers) ==> r == Ok(DefaultHandler)
    ensures handlers == map[] && Hashable(t) ==> r == Ok(DefaultHandler)
  {
    if !Hashable(t) then Err(TypeError)
    else if t.JStr? && t.s in handlers then Ok(handlers[t.s])
    else Ok(DefaultHandler)
  }

  /** What `handler.create` stages, by the handler's class. */
  function HandlerCreateStage(h: BaseHandler.Handler, attrs: Obj): Result<DataVersion> {
    match h.cls
    case BaseHandlerClass => BaseHandler.CreateStage(attrs)
    case GenericHandlerClass => GenericHandler.CreateStage(attrs)
    case PartDefinitionHandlerClass => PartusageHandler.CreateStage(attrs)
  }

  /** What `handler.update` stages; the PartUsage handler inherits the
      generic update. */
  function HandlerUpdateStage(h: BaseHandler.Handler, elementId: Json, attrs: Obj): Result<DataVersion> {
    match h.cls
    case BaseHandlerClass => BaseHandler.UpdateStage(attrs)
    case _ => GenericHandler.UpdateStage(elementId, attrs)
  }

  /** What `handler.delete` stages; the PartUsage handler inherits the
      generic delete. */
  function HandlerDeleteStage(h: BaseHandler.Handler, elementId: Json): Result<DataVersion> {
    match h.cls
    case BaseHandlerClass => Err(NotImplementedError)
    case _ => GenericHandler.DeleteStage(elementId)
  }

  method HandlerCreate(h: BaseHandler.Handler, client: SysMLClient, attrs: Obj) returns (o: Outcome)
    modifies client`change
    ensures StagedBy(HandlerCreateStage(h, attrs), o, old(client.change), client.change)
  {
    match h.cls
    case BaseHandlerClass => o := BaseHandler.Create(client, attrs);
    case GenericHandlerClass => o := GenericHandler.Create(client, attrs);
    case PartDefinitionHandlerClass => o := PartusageHandler.Create(client, attrs);
  }

  method HandlerUpdate(h: BaseHandler.Handler, client: SysMLClient, elementId: Json, attrs: Obj) returns (o: Outcome)
    modifies client`change
    ensures StagedBy(HandlerUpdateStage(h, elementId, attrs), o, old(client.change), client.change)
  {
    if h.cls == BaseHandler.BaseHandlerClass {
      o := BaseHandler.Update(client, elementId, attrs);
    } else {
      o := GenericHandler.Update(client, elementId, attrs);
    }
  }

  method HandlerDelete(h: BaseHandler.Handler, client: SysMLClient, elementId: Json) returns (o: Outcome)
    modifies client`change
    ensures StagedBy(HandlerDeleteStage(h, elementId), o, old(client.change), client.change)
  {
    if h.cls == BaseHandler.BaseHandlerClass {
      o := BaseHandler.Delete(client, elementId);
    } else {
      o := GenericHandler.Delete(client, elementId);
    }
  }

  /** An entry of `tools_by_name`: one of the three tools `make_tools` builds
      around the client, or a falsy value registered under some name. */
  datatype Tool = CreateTool | UpdateTool | DeleteTool | FalsyTool

  /** `{t.name: t for t in make_tools(client)}`: a tool's name is its
      function's name. */
  function ToolsByName(): (r: map<string, Tool>)
    ensures r.Keys == {"create", "update", "delete"}
    ensures r["create"] == CreateTool && r["update"] == UpdateTool && r["delete"] == DeleteTool
  {
    map["create" := CreateTool, "update" := UpdateTool, "delete" := DeleteTool]
  }

  /** The `create(**attrs)` closure: unwrap `attrs["attrs"]`, route by its
      `@type`. */
  function CreateToolStage(handlers: Registry, kwargs: Obj): (r: Result<DataVersion>)
    ensures !HasKey(kwargs, "attrs") ==> r == Err(KeyError)
    ensures HasKey(kwargs, "attrs") && !Lookup(kwargs, "attrs").value.JObj? ==> r == Err(AttributeError)
    ensures HasKey(kwargs, "attrs") && Lookup(kwargs, "attrs").value.JObj? ==>
      var attrs := Lookup(kwargs, "attrs").value.members;
      match ChooseHandler(handlers, Get(attrs, "@type"))
      case Err(e) => r == Err(e)
      case Ok(h) => r == HandlerCreateStage(h, attrs)
  {
    match Lookup(kwargs, "attrs")
    case None => Err(KeyError)
    case Some(attrs) =>
      if !attrs.JObj? then Err(AttributeError)
      else
        match ChooseHandler(handlers, Get(attrs.members, "@type"))
        case Err(e) => Err(e)
        case Ok(h) => HandlerCreateStage(h, attrs.members)
  }

  /** The `update(element_id, **attrs)` closure: `element_id` must be passed,
      the rest is unwrapped like for create. */
  function UpdateToolStage(handlers: Registry, kwargs: Obj): (r: Result<DataVersion>)
    ensures !HasKey(kwargs, "element_id") ==> r == Err(TypeError)
    ensures HasKey(kwargs, "element_id") && !HasKey(kwargs, "attrs") ==> r == Err(KeyError)
    ensures r.Ok? ==> r.value.identity == Lookup(kwargs, "element_id")
  {
    match Lookup(kwargs, "element_id")
    case None => Err(TypeError)
    case Some(elementId) =>
      match Lookup(Remove(kwargs, "element_id"), "attrs")
      case None => Err(KeyError)
      case Some(attrs) =>
        if !attrs.JObj? then Err(AttributeError)
        else
          match ChooseHandler(handlers, Get(attrs.members, "@type"))
          case Err(e) => Err(e)
          case Ok(h) => HandlerUpdateStage(h, elementId, attrs.members)
  }

  /** The `delete(element_id, type)` closure: exactly these two keyword
      arguments, routed by `type`. */
  function DeleteToolStage(handlers: Registry, kwargs: Obj): (r: Result<DataVersion>)
    ensures !(HasKey(kwargs, "element_id") && HasKey(kwargs, "type") && |kwargs| == 2) ==> r == Err(TypeError)
    ensures r.Ok? ==> r.value == DataVersion(JNull, Lookup(kwargs, "element_id"))
  {
    if !(HasKey(kwargs, "element_id") && HasKey(kwargs, "type") && |kwargs| == 2) then Err(TypeError)
    else
      match ChooseHandler(handlers, Lookup(kwargs, "type").value)
      case Err(e) => Err(e)
      case Ok(h) => HandlerDeleteStage(h, Lookup(kwargs, "element_id").value)
  }

  /** `tool.invoke(args)`: the tool's function called with the arguments as
      keywords. */
  function InvokeStage(tool: Tool, handlers: Registry, args: Json): Result<DataVersion> {
    if !args.JObj? then Err(TypeError)
    else match tool
      case CreateTool => CreateToolStage(handlers, args.members)
      case UpdateTool => UpdateToolStage(handlers, args.members)
      case DeleteTool => DeleteToolStage(handlers, args.members)
      case FalsyTool => Err(TypeError)
  }

  method InvokeCreateTool(handlers: Registry, client: SysMLClient, kwargs: Obj) returns (o: Outcome)
    modifies client`change
    ensures StagedBy(CreateToolStage(handlers, kwargs), o, old(client.change), client.change)
  {
    var attrs := Lookup(kwargs, "attrs");
    if attrs.None? {
      return Raised(KeyError);
    }
    if !attrs.value.JObj? {
      return Raised(AttributeError);
    }
    var handler := ChooseHandler(handlers, Get(attrs.value.members, "@type"));
    if handler.Err? {
      return Raised(handler.error);
    }
    o := HandlerCreate(handler.value, client, attrs.value.members);
  }

  method InvokeUpdateTool(handlers: Registry, client: SysMLClient, kwargs: Obj) returns (o: Outcome)
    modifies client`change
    ensures StagedBy(UpdateToolStage(handlers, kwargs), o, old(client.change), client.change)
  {
    var elementId := Lookup(kwargs, "element_id");
    if elementId.None? {
      return Raised(TypeError);
    }
    var attrs := Lookup(Remove(kwargs, "element_id"), "attrs");
    if attrs.None? {
      return Raised(KeyError);
    }
    if !attrs.value.JObj? {
      return Raised(AttributeError);
    }
    var handler := ChooseHandler(handlers, Get(attrs.value.members, "@type"));
    if handler.Err? {
      return Raised(handler.error);
    }
    o := HandlerUpdate(handler.value, client, elementId.value, attrs.value.members);
  }

  method InvokeDeleteTool(handlers: Registry, client: SysMLClient, kwargs: Obj) returns (o: Outcome)
    modifies client`change
    ensures StagedBy(DeleteToolStage(handlers, kwargs), o, old(client.change), client.change)
  {
    if !(HasKey(kwargs, "element_id") && HasKey(kwargs, "type") && |kwargs| == 2) {
      return Raised(TypeError);
    }
    var handler := ChooseHandler(handlers, Lookup(kwargs, "type").value);
    if handler.Err? {
      return Raised(handler.error);
    }
    o := HandlerDelete(handler.value, client, Lookup(kwargs, "element_id").value);
  }

  method InvokeTool(tool: Tool, handlers: Registry, client: SysMLClient, args: Json) returns (o: Outcome)
    modifies client`change
    ensures StagedBy(InvokeStage(tool, handlers, args), o, old(client.change), client.change)
  {
    if !args.JObj? {
      return Raised(TypeError);
    }
    match tool
    case CreateTool => o := InvokeCreateTool(handlers, client, args.members);
    case UpdateTool => o := InvokeUpdateTool(handlers, client, args.members);
    case DeleteTool => o := InvokeDeleteTool(handlers, client, args.members);
    case FalsyTool => o := Raised(TypeError);
  }

  /** `{"attrs": args}` unless `"attrs" in args`; `in` raises TypeError on a
      value that is neither a dict, a list nor a string. */
  function Wrap(args: Json): (r: Result<Json>)
    ensures r.Err? <==> In("attrs", args).Err?
    ensures In("attrs", args) == Ok(false) ==> r == Ok(JObj([Member("attrs", args)]))
    ensures In("attrs", args) == Ok(true) ==> r == Ok(args)
  {
    match In("attrs", args)
    case Err(e) => Err(e)
    case Ok(present) => if present then Ok(args) else Ok(JObj([Member("attrs", args)]))
  }

  /** `tool_args["element_id"] = tool_args["attrs"].pop("element_id")`, when
      `"element_id" in tool_args["attrs"]`: the value is popped first (a list
      pops only by position, a string has no `pop`), then stored at the top
      level. The dict under "attrs" keeps its place. */
  function MoveElementId(args: Obj): (r: Result<Json>)
    requires HasKey(args, "attrs")
  {
    var attrs := Lookup(args, "attrs").value;
    match In("element_id", attrs)
    case Err(e) => Err(e)
    case Ok(present) =>
      if !present then Ok(JObj(args))
      else if attrs.JArr? then Err(TypeError)
      else if attrs.JStr? then Err(AttributeError)
      else
        var v := Lookup(attrs.members, "element_id").value;
        Ok(JObj(Put(Put(args, "attrs", JObj(Remove(attrs.members, "element_id"))), "element_id", v)))
  }

  /** The argument preprocessing of `execute_tool`. */
  function PrepareArgs(name: Json, args: Json): (r: Result<Json>)
    ensures name != JStr("create") && name != JStr("update") ==> r == Ok(args)
    ensures name == JStr("create") ==> r == Wrap(args)
    ensures name == JStr("update") && r.Ok? ==> r.value.JObj? && HasKey(r.value.members, "attrs")
  {
    if name == JStr("create") then Wrap(args)
    else if name == JStr("update") then
      match Wrap(args)
      case Err(e) => Err(e)
      case Ok(wrapped) =>
        match Index(wrapped, "attrs")
        case Err(e) => Err(e)
        case Ok(_) => MoveElementId(wrapped.members)
    else Ok(args)
  }

  /** Wrapping is idempotent: create arguments given without the "attrs"
      envelope normalise to the same value as the same arguments given with
      it. */
  lemma CreateWrapIdempotent(attrs: Obj)
    requires !HasKey(attrs, "attrs")
    ensures PrepareArgs(JStr("create"), JObj(attrs)) == PrepareArgs(JStr("create"), JObj([Member("attrs", JObj(attrs))]))
    ensures PrepareArgs(JStr("create"), JObj(attrs)) == Ok(JObj([Member("attrs", JObj(attrs))]))
  {
    assert Keys([Member("attrs", JObj(attrs))]) == ["attrs"];
  }

  /** For update, an `element_id` inside the attributes moves to the top
      level: afterwards the attributes no longer hold it, the top level holds
      its value, and every other top-level key reads as before. */
  lemma {:induction false} UpdateMovesElementId(args: Obj, attrs: Obj, v: Json)
    requires Lookup(args, "attrs") == Some(JObj(attrs))
    requires Lookup(attrs, "element_id") == Some(v)
    ensures PrepareArgs(JStr("update"), JObj(args)).Ok?
    ensures var r := PrepareArgs(JStr("update"), JObj(args)).value.members;
      Lookup(r, "element_id") == Some(v) &&
      Lookup(r, "attrs") == Some(JObj(Remove(attrs, "element_id"))) &&
      forall k :: k != "element_id" && k != "attrs" ==> Lookup(r, k) == Lookup(args, k)
  {
    var moved := Put(args, "attrs", JObj(Remove(attrs, "element_id")));
    var r := Put(moved, "element_id", v);
    PrepareUpdate(args);
    MoveElementIdOf(args, attrs, v);
    PutLookup(moved, "element_id", v, "element_id");
    PutLookup(moved, "element_id", v, "attrs");
    PutLookup(args, "attrs", JObj(Remove(attrs, "element_id")), "attrs");
    forall k | k != "element_id" && k != "attrs" ensures Lookup(r, k) == Lookup(args, k) {
      PutLookup(moved, "element_id", v, k);
      PutLookup(args, "attrs", JObj(Remove(attrs, "element_id")), k);
    }
  }

  /** Update arguments that hold "attrs" go straight to the move. */
  lemma PrepareUpdate(args: Obj)
    requires HasKey(args, "attrs")
    ensures PrepareArgs(JStr("update"), JObj(args)) == MoveElementId(args)
  {
  }

  /** The move when the attributes are a dict holding `element_id`. */
  lemma MoveElementIdOf(args: Obj, attrs: Obj, v: Json)
    requires Lookup(args, "attrs") == Some(JObj(attrs))
    requires Lookup(attrs, "element_id") == Some(v)
    ensures MoveElementId(args) == Ok(JObj(Put(Put(args, "attrs", JObj(Remove(attrs, "element_id"))), "element_id", v)))
  {
  }

  /** Hence an update call that names its element inside the attributes
      stages an update of that element, with the remaining attributes. */
  lemma UpdateTargetsMovedId(handlers: Registry, args: Obj, attrs: Obj, v: Json)
    requires Lookup(args, "attrs") == Some(JObj(attrs))
    requires Lookup(attrs, "element_id") == Some(v)
    ensures PrepareArgs(JStr("update"), JObj(args)).Ok?
    ensures var staged := InvokeStage(UpdateTool, handlers, PrepareArgs(JStr("update"), JObj(args)).value);
      staged.Ok? ==> staged.value == DataVersion(JObj(Remove(attrs, "element_id")), Some(v))
  {
    UpdateMovesElementId(args, attrs, v);
    var r := PrepareArgs(JStr("update"), JObj(args)).value.members;
    var rest := Remove(r, "element_id");
    assert Lookup(rest, "attrs") == Some(JObj(Remove(attrs, "element_id")));
    var staged := UpdateToolStage(handlers, r);
    if staged.Ok? {
      var inner := Remove(attrs, "element_id");
      var h := ChooseHandler(handlers, Get(inner, "@type")).value;
      assert staged == HandlerUpdateStage(h, v, inner);
    }
  }

  /** Routing by `@type`: with the PartUsage handler registered, a create
      whose attributes say "PartUsage" goes through that handler; with an
      empty registry the same call goes through a generic handler. Either
      way the staged entry is the same. */
  lemma CreateRoutesByType(attrs: Obj)
    requires Get(attrs, "@type") == JStr(PartusageHandler.RegisteredType)
    ensures var registered := map[PartusageHandler.RegisteredType :=
        BaseHandler.Handler(BaseHandler.PartDefinitionHandlerClass, Some(PartusageHandler.RegisteredType))];
      CreateToolStage(registered, [Member("attrs", JObj(attrs))]) == PartusageHandler.CreateStage(attrs)
    ensures CreateToolStage(map[], [Member("attrs", JObj(attrs))]) == GenericHandler.CreateStage(attrs)
    ensures CreateToolStage(map[], [Member("attrs", JObj(attrs))]).Ok? ==>
      CreateToolStage(map[], [Member("attrs", JObj(attrs))]) == PartusageHandler.CreateStage(attrs)
  {
    PartusageHandler.CreateAgreesWithGeneric(attrs);
  }

  /** The log message for a tool that was invoked. */
  function ResultMessage(name: string, args: Json, succeeded: bool): string {
    if succeeded then name + " - " + PyText.Str(args)
    else "Error: Toolcall malfunction for " + name + " - " + PyText.Str(args)
  }

  /** The "args" of a tool call, `{}` when it has none. */
  function ArgsOf(toolCall: Obj): Json {
    match Lookup(toolCall, "args")
    case Some(a) => a
    case None => JObj([])
  }

  /** `execute_tool(tools_by_name, tool_call)`. The tool is looked up by a
      plain dict index before the `try`, so an unknown or missing name raises
      KeyError out of the call; only a falsy registered value gives the "not
      found" message. Errors of the preprocessing escape as well; errors of
      the invocation are caught and reported in the message. */
  method ExecuteTool(tools: map<string, Tool>, toolCall: Json, handlers: Registry, client: SysMLClient)
    returns (r: Result<string>)
    modifies client`change
    ensures !toolCall.JObj? ==> r == Err(AttributeError) && client.change == old(client.change)
    ensures toolCall.JObj? ==>
      var name := Get(toolCall.members, "name");
      var args := ArgsOf(toolCall.members);
      (!Hashable(name) ==> r == Err(TypeError) && client.change == old(client.change)) &&
      (Hashable(name) && !(name.JStr? && name.s in tools) ==> r == Err(KeyError) && client.change == old(client.change)) &&
      (name.JStr? && name.s in tools && tools[name.s] == FalsyTool ==>
        r == Ok("Error: Tool " + name.s + " not found.") && client.change == old(client.change)) &&
      (name.JStr? && name.s in tools && tools[name.s] != FalsyTool && PrepareArgs(name, args).Err? ==>
        r == Err(PrepareArgs(name, args).error) && client.change == old(client.change)) &&
      (name.JStr? && name.s in tools && tools[name.s] != FalsyTool && PrepareArgs(name, args).Ok? ==>
        var a := PrepareArgs(name, args).value;
        var staged := InvokeStage(tools[name.s], handlers, a);
        var succeeded := staged.Ok? && old(client.change).Some?;
        r == Ok(ResultMessage(name.s, a, succeeded)) &&
        client.change == if succeeded then Some(old(client.change).value + [staged.value]) else old(client.change))
  {
    if !toolCall.JObj? {
      return Err(AttributeError);
    }
    var name := Get(toolCall.members, "name");
    var args := ArgsOf(toolCall.members);
    if !Hashable(name) {
      return Err(TypeError);
    }
    if !(name.JStr? && name.s in tools) {
      return Err(KeyError);
    }
    var tool := tools[name.s];
    if tool == FalsyTool {
      return Ok("Error: Tool " + name.s + " not found.");
    }
    var prepared := PrepareArgs(name, args);
    if prepared.Err? {
      return Err(prepared.error);
    }
    var o := InvokeTool(tool, handlers, client, prepared.value);
    return Ok(ResultMessage(name.s, prepared.value, o.Done?));
  }
}
