/**
 * The handler registered for "PartUsage" (the Python class is named
 * `PartDefinitionHandler`). Its create checks `@type` only, like the generic
 * one, with its own message; update and delete are inherited from
 * `GenericHandler`.
 */
module PartusageHandler {
  import opened Json
  import opened SysmlClient
  import BaseHandler
  import GenericHandler

  const RegisteredType: string := "PartUsage"
  const CreateMessage: string := "Missing '@type' for partusage create."

  /** The decorator applied when the module is imported. */
  method Register(registry: BaseHandler.TypeHandlers) returns (cls: BaseHandler.HandlerClass)
    modifies registry
    ensures cls == BaseHandler.PartDefinitionHandlerClass
    ensures registry.handlers ==
      old(registry.handlers)[RegisteredType := BaseHandler.Handler(BaseHandler.PartDefinitionHandlerClass, Some(RegisteredType))]
  {
    cls := registry.RegisterHandler(RegisteredType, BaseHandler.PartDefinitionHandlerClass);
  }

  /** What the PartUsage create stages, or the error it raises first. */
  function CreateStage(attrs: Obj): (r: Result<DataVersion>)
    ensures r.Ok? <==> !BaseHandler.CreateClash(attrs) && Truthy(Get(attrs, "@type"))
    ensures r.Ok? ==> r.value == DataVersion(JObj(attrs), None)
    ensures !BaseHandler.CreateClash(attrs) && !Truthy(Get(attrs, "@type")) ==> r == Err(ValueError(CreateMessage))
  {
    if BaseHandler.CreateClash(attrs) then Err(TypeError)
    else if !Truthy(Get(attrs, "@type")) then Err(ValueError(CreateMessage))
    else Ok(DataVersion(JObj(attrs), None))
  }

  /** The PartUsage create asks for nothing beyond `@type`: it stages exactly
      what the generic create stages and fails exactly when that fails, only
      the message differs. */
  lemma CreateAgreesWithGeneric(attrs: Obj)
    ensures CreateStage(attrs).Ok? <==> GenericHandler.CreateStage(attrs).Ok?
    ensures CreateStage(attrs).Ok? ==> CreateStage(attrs) == GenericHandler.CreateStage(attrs)
    ensures CreateStage(attrs).Err? && CreateStage(attrs).error.ValueError? ==>
      GenericHandler.CreateStage(attrs) == Err(ValueError(GenericHandler.CreateMessage))
  {
  }

  method Create(client: SysMLClient, attrs: Obj) returns (o: Outcome)
    modifies client`change
    ensures StagedBy(CreateStage(attrs), o, old(client.change), client.change)
  {
    if BaseHandler.CreateClash(attrs) {
      return Raised(TypeError);
    }
    var sysmlType := Get(attrs, "@type");
    if !Truthy(sysmlType) {
      return Raised(ValueError(CreateMessage));
    }
    o := client.Create(attrs);
  }
}
