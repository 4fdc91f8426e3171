/**
 * The handler interface and the registry of handlers by SysML type.
 *
 * Python handlers are stateless objects whose class decides what their
 * methods do, so a handler is its class plus the `sysml_type` the registry
 * stamps on it (None for an instance that was never registered).
 */
module BaseHandler {
  import opened Json
  import opened SysmlClient

  datatype HandlerClass = BaseHandlerClass | GenericHandlerClass | PartDefinitionHandlerClass

  datatype Handler = Handler(cls: HandlerClass, sysmlType: Option<string>)

  /** `handler.create(client, **attrs)` binds `self` and `client` itself, so
      keyword arguments with those names raise TypeError. */
  predicate CreateClash(attrs: Obj) {
    HasKey(attrs, "self") || HasKey(attrs, "client")
  }

  /** `handler.update(client, element_id, **attrs)` also binds `element_id`. */
  predicate UpdateClash(attrs: Obj) {
    CreateClash(attrs) || HasKey(attrs, "element_id")
  }

  /** What `BaseHandler.create` stages: nothing, it always raises. */
  function CreateStage(attrs: Obj): (r: Result<DataVersion>)
    ensures r.Err?
    ensures r.error == (if CreateClash(attrs) then TypeError else NotImplementedError)
  {
    if CreateClash(attrs) then Err(TypeError) else Err(NotImplementedError)
  }

  function UpdateStage(attrs: Obj): (r: Result<DataVersion>)
    ensures r.Err?
    ensures r.error == (if UpdateClash(attrs) then TypeError else NotImplementedError)
  {
    if UpdateClash(attrs) then Err(TypeError) else Err(NotImplementedError)
  }

  /** `BaseHandler.create`: an abstract method. */
  method Create(client: SysMLClient, attrs: Obj) returns (o: Outcome)
    ensures o.Raised? && StagedBy(CreateStage(attrs), o, client.change, client.change)
    ensures !CreateClash(attrs) ==> o == Raised(NotImplementedError)
  {
    if CreateClash(attrs) {
      return Raised(TypeError);
    }
    return Raised(NotImplementedError);
  }

  /** `BaseHandler.update`: an abstract method. */
  method Update(client: SysMLClient, elementId: Json, attrs: Obj) returns (o: Outcome)
    ensures o.Raised? && StagedBy(UpdateStage(attrs), o, client.change, client.change)
    ensures !UpdateClash(attrs) ==> o == Raised(NotImplementedError)
  {
    if UpdateClash(attrs) {
      return Raised(TypeError);
    }
    return Raised(NotImplementedError);
  }

  /** `BaseHandler.delete`: an abstract method. */
  method Delete(client: SysMLClient, elementId: Json) returns (o: Outcome)
    ensures o == Raised(NotImplementedError)
  {
    return Raised(NotImplementedError);
  }

  /** `TYPE_HANDLERS`, the module-level dict of registered handlers. */
  class TypeHandlers {
    var handlers: map<string, Handler>

    /** The dict starts empty. */
    constructor()
      ensures handlers == map[]
    {
      handlers := map[];
    }

    /** `register_handler(sysml_type)(cls)`: one new instance of `cls`,
        stamped with the type, replaces whatever was registered under that
        type; the decorator hands back the class itself. */
    method RegisterHandler(sysmlType: string, cls: HandlerClass) returns (r: HandlerClass)
      modifies this
      ensures r == cls
      ensures handlers == old(handlers)[sysmlType := Handler(cls, Some(sysmlType))]
      ensures sysmlType in handlers && handlers[sysmlType].sysmlType == Some(sysmlType)
      ensures forall t :: t in old(handlers) && t != sysmlType ==> t in handlers && handlers[t] == old(handlers)[t]
    {
      var inst := Handler(cls, None);
      inst := inst.(sysmlType := Some(sysmlType));
      handlers := handlers[sysmlType := inst];
      return cls;
    }
  }
}
