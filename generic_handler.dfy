/**
 * `GenericHandler`: the handler for every SysML type without a registered
 * one. Create and update insist on a truthy `@type`; delete stages
 * unconditionally.
 */
module GenericHandler {
  import opened Json
  import opened SysmlClient
  import BaseHandler

  const CreateMessage: string := "Missing '@type' for generic create."
  const UpdateMessage: string := "Missing '@type' for generic update."

  /** What `GenericHandler.create` stages, or the error it raises first. */
  function CreateStage(attrs: Obj): (r: Result<DataVersion>)
    ensures r.Ok? <==> !BaseHandler.CreateClash(attrs) && Truthy(Get(attrs, "@type"))
    ensures r.Ok? ==> r.value == DataVersion(JObj(attrs), None)
    ensures !BaseHandler.CreateClash(attrs) && !Truthy(Get(attrs, "@type")) ==> r == Err(ValueError(CreateMessage))
  {
    if BaseHandler.CreateClash(attrs) then Err(TypeError)
    else if !Truthy(Get(attrs, "@type")) then Err(ValueError(CreateMessage))
    else Ok(DataVersion(JObj(attrs), None))
  }

  /** What `GenericHandler.update` stages, or the error it raises first. */
  function UpdateStage(elementId: Json, attrs: Obj): (r: Result<DataVersion>)
    ensures r.Ok? <==> !BaseHandler.UpdateClash(attrs) && Truthy(Get(attrs, "@type"))
    ensures r.Ok? ==> r.value == DataVersion(JObj(attrs), Some(elementId))
    ensures !BaseHandler.UpdateClash(attrs) && !Truthy(Get(attrs, "@type")) ==> r == Err(ValueError(UpdateMessage))
  {
    if BaseHandler.UpdateClash(attrs) then Err(TypeError)
    else if !Truthy(Get(attrs, "@type")) then Err(ValueError(UpdateMessage))
    else Ok(DataVersion(JObj(attrs), Some(elementId)))
  }

  /** What `GenericHandler.delete` stages: always the removal. */
  function DeleteStage(elementId: Json): (r: Result<DataVersion>)
    ensures r == Ok(DataVersion(JNull, Some(elementId)))
  {
    Ok(DataVersion(JNull, Some(elementId)))
  }

  method Create(client: SysMLClient, attrs: Obj) returns (o: Outcome)
    modifies client`change
    ensures StagedBy(CreateStage(attrs), o, old(client.change), client.change)
  {
    if BaseHandler.CreateClash(attrs) {
      return Raised(TypeError);
    }
    var sysmlType := Get(attrs, "@type");
    if !Truthy(sysmlType) {
      return Raised(ValueError(CreateMessage));
    }
    o := client.Create(attrs);
  }

  method Update(client: SysMLClient, elementId: Json, attrs: Obj) returns (o: Outcome)
    modifies client`change
    ensures StagedBy(UpdateStage(elementId, attrs), o, old(client.change), client.change)
  {
    if BaseHandler.UpdateClash(attrs) {
      return Raised(TypeError);
    }
    var sysmlType := Get(attrs, "@type");
    if !Truthy(sysmlType) {
      return Raised(ValueError(UpdateMessage));
    }
    o := client.Update(elementId, attrs);
  }

  method Delete(client: SysMLClient, elementId: Json) returns (o: Outcome)
    modifies client`change
    ensures StagedBy(DeleteStage(elementId), o, old(client.change), client.change)
  {
    o := client.Delete(elementId);
  }
}
