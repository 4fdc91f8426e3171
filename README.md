# Semantic-aware change management for SysML v2: a verified model of the staging pipeline

The system lets an LLM edit a SysML v2 model held on a SysML v2 API server.
The LLM never writes to the server directly. It calls three tools, `create`,
`update` and `delete`. A registry of handlers keyed by SysML type validates
each call and routes it to a staging client. The client collects `DataVersion`
entries in a local change list and sends the whole list as one commit. Context
for the LLM comes from a vector store of the model's elements. The store holds
one document per element with its empty fields removed, and it can return an
element's children and its owner. Around this sit a text importer and exporter
for a small subset of textual SysML (`part def` and `part` declarations in
nested `package` blocks). A demo seeder flattens a YAML element tree into one
change list. A demo UI renders the ownership forest as an indented Markdown
list.

This Dafny project models that core, one module per source file:

| module | file | models |
|---|---|---|
| `Json` | json.dfy | Python values as JSON (dicts keep insertion order), Python exceptions, truthiness, `d[k]`, `d.get`, `in`, iteration |
| `PyText` | pytext.dfy | `str()`/`repr()` of those values, `strip`, `rstrip(c)` |
| `JsonSanitize` | json_sanitize.dfy | `sanitize` |
| `SysmlClient` | sysml_client.dfy | `SysMLClient`: the REST endpoints as a `Remote` value of functions |
| `BaseHandler`, `GenericHandler`, `PartusageHandler` | *_handler.dfy | the handlers and `TYPE_HANDLERS` |
| `Tooling` | tooling.dfy | `_choose_handler`, the tool closures of `make_tools`, `execute_tool` |
| `VectorStore` | vector_store.dfy | `VectorDB`: the Chroma collection as a list of documents |
| `ContextManager` | context_manager.dfy | `ContextManager` |
| `SysmlFileIo` | sysml_file_io.dfy | `read_sysml_file`, `FileImporter`, `FileExporter` |
| `Seeds` | seeds.dfy | `build_change_list`, `parse_project` |
| `Frontend` | frontend.dfy | `_normalize_id`, `model_to_markdown` |

Code that changes state in place is modelled in place:
- the client's fields;
- `TYPE_HANDLERS`;
- the store's documents;
- the importer's and exporter's attributes;
- the seeder's shared `id_map`;
- the renderer's `lines` and `visiting`.

Each such method is proved against a specification function. Properties of
those functions are stated as lemmas. A Python exception becomes an `Err` or
`Raised` value that names the exception class. Every error path in the
source's own code is modelled: a missing key, a value of the wrong type and a
missing attribute each raise. Errors raised inside libraries are not (see
"Left out").

## Model

The last rows are members that model Python built-ins at the points where
the core uses them.

| member | source | states |
|---|---|---|
| JsonSanitize.SanitizeElement | src/utils/json_sanitize.py:6 | a field survives exactly when its value is not None, "", [] or {}; nothing is added |
| JsonSanitize.SanitizeKeys | src/utils/json_sanitize.py:6 | filtering only removes keys, so a dict with distinct keys stays one |
| JsonSanitize.SanitizeLookup | src/utils/json_sanitize.py:6 | a key with a non-empty value reads the identical value afterwards; a key with an empty value is gone |
| JsonSanitize.SanitizeElementIdempotent | src/utils/json_sanitize.py:6 | sanitising a sanitised element changes nothing |
| JsonSanitize.SanitizeConcat | src/utils/json_sanitize.py:6 | the filter keeps the relative order of the fields it keeps |
| JsonSanitize.SanitizeAll | src/utils/json_sanitize.py:5-7 | one output per input, output i is input i filtered |
| JsonSanitize.Sanitize | src/utils/json_sanitize.py:1-9 | the loop: TypeError for a non-iterable input, AttributeError when some element is not a dict, otherwise a list of the same length whose element i is input element i sanitised |
| SysmlClient.DataVersionJson | src/sysml2/sysml_client.py:44-75 | a staged dict has `@type` "DataVersion", the payload, and `identity: {"@id": id}` exactly for an update or delete |
| SysmlClient.DataVersionJsonInjective | src/sysml2/sysml_client.py:44-75 | different changes stage different dicts |
| SysmlClient.CheckProjectBranch | src/sysml2/sysml_client.py:11-18 | 200 exactly when both lookups succeed; otherwise 404, with "Project not found" exactly when the project is missing and "Branch not found" exactly when only the branch is |
| SysmlClient.Titles | src/sysml2/sysml_client.py:33 | the comprehension succeeds exactly when every schema has a "title"; the result lists them in order; a failure is the first failing lookup's error |
| SysmlClient.DatatypeTitles | src/sysml2/sysml_client.py:33 | `datatypes["$defs"]` must exist and be a dict (AttributeError otherwise); its values' titles in insertion order |
| SysmlClient.HeadCommit | src/sysml2/sysml_client.py:27-28 | succeeds exactly when the branch has a `head` holding an `@id` |
| SysmlClient.SysMLClient.constructor | src/sysml2/sysml_client.py:9 | a new client has none of the attributes `initialize` sets |
| SysmlClient.SysMLClient.Initialize | src/sysml2/sysml_client.py:20-35 | completes exactly when the project name, the head commit and the datatype titles can all be read; then `change` is [] and `commit_id` is the head's `@id`; a failure leaves the attributes assigned before it set and the later ones unchanged |
| SysmlClient.SysMLClient.GetAllElements | src/sysml2/sysml_client.py:37-39 | the server's elements at the current head; AttributeError before `initialize`; no state changes |
| SysmlClient.SysMLClient.GetElement | src/sysml2/sysml_client.py:82-85 | the server's element at the current head; AttributeError before `initialize`; no state changes |
| SysmlClient.SysMLClient.Create | src/sysml2/sysml_client.py:41-50 | appends exactly one entry with payload attrs and no identity; earlier entries unchanged; raises and stages nothing without a change list or with a `self` keyword |
| SysmlClient.SysMLClient.Update | src/sysml2/sysml_client.py:52-64 | appends exactly one entry with payload attrs and identity element_id; earlier entries unchanged |
| SysmlClient.SysMLClient.Delete | src/sysml2/sysml_client.py:66-75 | appends exactly one entry with no payload and identity element_id |
| SysmlClient.SysMLClient.CommitAndPush | src/sysml2/sysml_client.py:77-80 | sends the whole staged list in append order; the answer becomes `commit_id` and the list is emptied even when the push failed (answer None) |
| BaseHandler.CreateStage | src/sysml2/handler/base_handler.py:7-8 | the abstract create always fails: NotImplementedError, or TypeError for a keyword that clashes with a bound parameter |
| BaseHandler.UpdateStage | src/sysml2/handler/base_handler.py:10-11 | the abstract update always fails in the same way |
| BaseHandler.Create | src/sysml2/handler/base_handler.py:7-8 | always raises and leaves the client's change list as it was |
| BaseHandler.Update | src/sysml2/handler/base_handler.py:10-11 | always raises and leaves the client's change list as it was |
| BaseHandler.Delete | src/sysml2/handler/base_handler.py:13-14 | always raises NotImplementedError |
| BaseHandler.TypeHandlers.constructor | src/sysml2/handler/base_handler.py:16 | the registry starts empty |
| BaseHandler.TypeHandlers.RegisterHandler | src/sysml2/handler/base_handler.py:18-27 | stores one instance of the class under the type, stamped with that type; a second registration replaces the first; other keys untouched; the class is returned unchanged |
| GenericHandler.CreateStage | src/sysml2/handler/generic_handler.py:9-17 | stages exactly when `@type` is truthy, and then the create with the same attrs; otherwise ValueError "Missing '@type' for generic create." |
| GenericHandler.UpdateStage | src/sysml2/handler/generic_handler.py:19-27 | stages exactly when `@type` is truthy, and then the update of element_id; otherwise ValueError |
| GenericHandler.DeleteStage | src/sysml2/handler/generic_handler.py:29-33 | no validation: always the removal of element_id |
| GenericHandler.Create | src/sysml2/handler/generic_handler.py:9-17 | the client's list grows by exactly the staged create, or is unchanged when an error is raised |
| GenericHandler.Update | src/sysml2/handler/generic_handler.py:19-27 | the client's list grows by exactly the staged update, or is unchanged when an error is raised |
| GenericHandler.Delete | src/sysml2/handler/generic_handler.py:29-33 | the client's list grows by exactly one delete |
| PartusageHandler.Register | src/sysml2/handler/partusage_handler.py:7-8 | the class is registered under "PartUsage", replacing any earlier entry |
| PartusageHandler.CreateStage | src/sysml2/handler/partusage_handler.py:10-18 | stages exactly when `@type` is truthy; otherwise ValueError "Missing '@type' for partusage create." |
| PartusageHandler.CreateAgreesWithGeneric | src/sysml2/handler/partusage_handler.py:10-18 | checks nothing beyond `@type`: succeeds exactly when the generic create does, stages the same entry, and differs only in the message |
| PartusageHandler.Create | src/sysml2/handler/partusage_handler.py:10-18 | the client's list grows by exactly the staged create, or is unchanged when an error is raised |
| Tooling.ChooseHandler | src/sysml2/tooling.py:9-10 | the registered handler for a string type, a fresh generic handler for any other hashable value, TypeError for a list or dict |
| Tooling.HandlerCreate | src/sysml2/tooling.py:22 | dispatches `handler.create` on the handler's class: the base, generic or PartUsage create |
| Tooling.HandlerUpdate | src/sysml2/tooling.py:34 | dispatches `handler.update`; the PartUsage handler inherits the generic update |
| Tooling.HandlerDelete | src/sysml2/tooling.py:45 | dispatches `handler.delete`; the PartUsage handler inherits the generic delete |
| Tooling.ToolsByName | src/sysml2/tooling.py:47-51 | exactly the three tools, each under its function's name |
| Tooling.CreateToolStage | src/sysml2/tooling.py:13-22 | KeyError without "attrs"; AttributeError when it is not a dict; otherwise routed by its `@type` to the chosen handler's create |
| Tooling.UpdateToolStage | src/sysml2/tooling.py:24-34 | TypeError without element_id, KeyError without "attrs"; a staged update always targets the element_id passed |
| Tooling.DeleteToolStage | src/sysml2/tooling.py:36-45 | takes exactly `element_id` and `type` (TypeError otherwise), routes by `type` and stages the removal of element_id |
| Tooling.InvokeCreateTool | src/sysml2/tooling.py:13-22 | the client's list changes exactly as the create tool stages |
| Tooling.InvokeUpdateTool | src/sysml2/tooling.py:24-34 | the client's list changes exactly as the update tool stages |
| Tooling.InvokeDeleteTool | src/sysml2/tooling.py:36-45 | the client's list changes exactly as the delete tool stages |
| Tooling.InvokeTool | src/sysml2/tooling.py:74 | `tool.invoke(args)`: the list changes exactly as the invoked tool stages; a falsy tool cannot be called |
| Tooling.Wrap | src/sysml2/tooling.py:65-69 | `{"attrs": args}` exactly when "attrs" is not in args; args unchanged otherwise; TypeError where `in` does not apply |
| Tooling.PrepareArgs | src/sysml2/tooling.py:64-71 | tools other than create and update get their args unchanged; create args are wrapped; a successful update result always holds "attrs" |
| Tooling.CreateWrapIdempotent | src/sysml2/tooling.py:65-66 | create args given bare or already wrapped normalise to the same wrapped value |
| Tooling.UpdateMovesElementId | src/sysml2/tooling.py:67-71 | after preprocessing, attrs no longer hold element_id, the top level holds its value, and every other top-level key reads as before |
| Tooling.UpdateTargetsMovedId | src/sysml2/tooling.py:67-74 | an update whose attrs name the element stages an update of that element with the remaining attrs |
| Tooling.CreateRoutesByType | src/sysml2/tooling.py:9-22 | a "PartUsage" create goes through the registered handler when there is one and through a generic handler otherwise; both stage the same entry |
| Tooling.ExecuteTool | src/sysml2/tooling.py:53-78 | an unknown name raises KeyError (the lookup precedes the `try`); a falsy tool gives "Error: Tool … not found."; preprocessing errors escape; otherwise "<name> - <args>" on success or "Error: Toolcall malfunction for …" on failure, and the list grows by the staged entry exactly on success |
| VectorStore.FindDoc | src/context/vector_store.py:60 | a document is found exactly for a stored id, and it carries that id |
| VectorStore.Upsert | src/context/vector_store.py:32 | adds the document's id to the stored ids and keeps ids distinct |
| VectorStore.UpsertFind | src/context/vector_store.py:32 | after adding, the new document is found under its id and every other id finds what it found before |
| VectorStore.UpsertAll | src/context/vector_store.py:32 | the stored ids become the old ids plus the added ones, still distinct |
| VectorStore.UpsertAllUntouched | src/context/vector_store.py:32 | ids that are not added keep their documents |
| VectorStore.UpsertAllLast | src/context/vector_store.py:32 | the last document added under an id is the one stored |
| VectorStore.ToDocument | src/context/vector_store.py:25-29 | id = the element's `@id` (KeyError without one), content = its JSON text, `owner_id` = `owner["@id"]` or None without an owner; AttributeError for a non-dict owner |
| VectorStore.Documents | src/context/vector_store.py:23-30 | one document per sanitised element, in order; fails exactly when some element cannot be projected |
| VectorStore.ChildDocs | src/context/vector_store.py:55-57 | exactly the stored documents with `owner_id` equal to the id and non-empty content |
| VectorStore.ParseAll | src/context/vector_store.py:57 | every content parses (else the decode error escapes), in order |
| VectorStore.Owner | src/context/vector_store.py:60-71 | no owner without a truthy stored `owner_id`, or when that owner is not stored |
| VectorStore.Uniq | src/context/vector_store.py:78-83 | the distinct values of a list, each at its first occurrence |
| VectorStore.Dedup | src/context/vector_store.py:78-83 | the ids of the result are the input's ids with repeats removed, in first-occurrence order |
| VectorStore.DedupOk | src/context/vector_store.py:79-81 | the loop fails exactly when some element is not a dict or has an unhashable id |
| VectorStore.DedupLastWins | src/context/vector_store.py:81 | for each id, the element kept is the last one in the input with that id |
| VectorStore.DedupStepHas | src/context/vector_store.py:81 | after `unique_by_id[eid] = el`, `el` is among the dict's values |
| VectorStore.DedupStepKeeps | src/context/vector_store.py:81 | the assignment keeps every stored element whose id differs |
| VectorStore.RelatedDistinct | src/context/vector_store.py:46-83 | the result's ids are pairwise distinct, in the order of first occurrence among children then owner |
| VectorStore.RelatedHasChildren | src/context/vector_store.py:55-57 | every stored child of the id reaches the result |
| VectorStore.RelatedChildrenOnly | src/context/vector_store.py:60-75 | without a truthy stored owner id, or when the owner is not stored, the result is the children alone |
| VectorStore.RelatedFromChildrenOrOwner | src/context/vector_store.py:73-76 | every element of the result is a child of the id or its owner |
| VectorStore.AddResult | src/context/vector_store.py:19-32 | sanitising raises on a non-list (TypeError) or a non-dict element (AttributeError), even when the input is falsy; a falsy input leaves the store as it was; otherwise the projected documents are upserted and ids stay distinct |
| VectorStore.AddResultFinds | src/context/vector_store.py:24-32 | every added element is found under its `@id`, holding its sanitised JSON text |
| VectorStore.VectorDB.constructor | src/context/vector_store.py:10-17 | the store opens on its persisted collection |
| VectorStore.VectorDB.BuildDocuments | src/context/vector_store.py:23-30 | the document loop computes the projection of every element |
| VectorStore.VectorDB.AddElements | src/context/vector_store.py:19-32 | the store becomes exactly the add result, or stays unchanged when an error is raised |
| VectorStore.VectorDB.RemoveAllElements | src/context/vector_store.py:34-37 | afterwards the store holds no ids |
| VectorStore.VectorDB.Query | src/context/vector_store.py:39-44 | the similarity ranking of the current documents |
| VectorStore.VectorDB.RelatedElements | src/context/vector_store.py:46-83 | children, then the owner, then one element per id |
| VectorStore.DedupById | src/context/vector_store.py:78-83 | the `unique_by_id` loop computes the de-duplication |
| ContextManager.BaseElements | src/context/context_manager.py:24-29 | at most one element per found document, each the parse of some document's content; unparsable documents are skipped |
| ContextManager.BaseElementsConcat | src/context/context_manager.py:24-29 | each found document contributes on its own: the base elements of two lists of documents are those of the first list followed by those of the second |
| ContextManager.BaseElementsOne | src/context/context_manager.py:25-29 | a document whose content parses contributes exactly its parse; one that does not parse contributes nothing |
| ContextManager.SeenIds | src/context/context_manager.py:32 | the set of the ids of the base dicts; TypeError for an unhashable id |
| ContextManager.ExtendsTrans | src/context/context_manager.py:46-50 | appending related elements in two rounds is appending them in one |
| ContextManager.AddRelatedExtends | src/context/context_manager.py:46-50 | an element is appended only with a truthy id not yet seen; appended ids are distinct and recorded as seen |
| ContextManager.ExpandExtends | src/context/context_manager.py:35-50 | the whole expansion loop only appends such elements |
| ContextManager.ExpandSkips | src/context/context_manager.py:36-38 | a base entry that is not a dict or has no truthy id triggers no expansion |
| ContextManager.DumpAll | src/context/context_manager.py:53 | one JSON text per enriched element, same length and order |
| ContextManager.EnrichedShape | src/context/context_manager.py:32-50 | the parsed base elements form the prefix in query order; each later element has a truthy id that repeats no base id and no other later id; duplicate base elements stay |
| ContextManager.AddRelatedCovers | src/context/context_manager.py:46-50 | after the inner loop the id of every related element with a truthy id is seen, and every seen id is the id of some element of the list |
| ContextManager.AddRelatedFrom | src/context/context_manager.py:46-50 | the inner loop appends only elements of the related list |
| ContextManager.ExpandCovers | src/context/context_manager.py:35-50 | after the outer loop the related elements of every base element with a truthy id are all seen, and every seen id is backed by an element of the list |
| ContextManager.ExpandFrom | src/context/context_manager.py:35-50 | the outer loop appends only related elements of the base elements it expands |
| ContextManager.EnrichedComplete | src/context/context_manager.py:32-50 | every related element with a truthy id of a base element with a truthy id is represented in the context: an element with that id is in the enriched list |
| ContextManager.EnrichedFromRelated | src/context/context_manager.py:35-50 | every element after the base elements is a related element of some base element with a truthy id |
| ContextManager.ContextManager.Init | src/context/context_manager.py:10-12 | the manager holds the given client and store |
| ContextManager.ContextManager.New | src/context/context_manager.py:10-15 | the store is cleared, then holds exactly the client's current elements; an exception ends construction |
| ContextManager.ContextManager.ParseBase | src/context/context_manager.py:24-29 | the parse loop computes the base elements |
| ContextManager.ContextManager.CreateContext | src/context/context_manager.py:17-56 | queries 5 documents, expands each base element by its related elements (an error there counts as none) and returns their JSON texts |
| SysmlFileIo.ReadSysmlFile | src/utils/sysml_file_io.py:15-35 | the lines are returned exactly when the path ends in ".sysml" and the read gives at least one line; otherwise ValueError, the read error, or OSError for an empty file |
| SysmlFileIo.ParseStripped | src/utils/sysml_file_io.py:73-78 | a declaration exactly for a line starting with "part"; a definition exactly when it starts with "part def" |
| SysmlFileIo.ParsedLineStages | src/utils/sysml_file_io.py:72-78 | a file with any part line yields at least one declaration |
| SysmlFileIo.ParseLinesEmpty | src/utils/sysml_file_io.py:72-78 | no declaration exactly when no stripped line starts with "part" |
| SysmlFileIo.ParseLinesConcat | src/utils/sysml_file_io.py:72 | the declarations follow the line order of the file |
| SysmlFileIo.DeclAttrs | src/utils/sysml_file_io.py:75-78 | the attributes staged for a declaration carry its type and name |
| SysmlFileIo.CreationsAt | src/utils/sysml_file_io.py:75-78 | entry i is a create of declaration i with that type and name |
| SysmlFileIo.NewEntries | src/utils/sysml_file_io.py:81-83 | the entries of the current list that were not in the list before the call |
| SysmlFileIo.NewEntriesAppended | src/utils/sysml_file_io.py:81-83 | when the appended entries are new, `commits` is exactly them |
| SysmlFileIo.NewEntriesDropsRepeats | src/utils/sysml_file_io.py:82 | an appended entry equal to an earlier one is not in `commits` |
| SysmlFileIo.FileImporter.constructor | src/utils/sysml_file_io.py:47-49 | both lists start empty and `commits` is not yet set |
| SysmlFileIo.FileImporter.InterpretAsWritten | src/utils/sysml_file_io.py:51-83 | as written: the first part line raises AttributeError (`create_element`); only a file without part lines completes, with no commits |
| SysmlFileIo.FileImporter.Interpret | src/utils/sysml_file_io.py:51-83 | corrected: stages one create per part line in file order; `commits` lists the entries that were not there before |
| SysmlFileIo.PartLineIsStaged | src/utils/sysml_file_io.py:76-78 | the line "part Wheel;" is a PartUsage declaration named Wheel, so the as-written method raises on it |
| SysmlFileIo.Indent | src/utils/sysml_file_io.py:128 | a multiple of 4 spaces per indent level |
| SysmlFileIo.Select | src/utils/sysml_file_io.py:143-144 | fails exactly when some element has no readable `@type`; the result holds only elements of that type |
| SysmlFileIo.SelectKeeps | src/utils/sysml_file_io.py:143-144 | every element of the type is selected |
| SysmlFileIo.SelectKeyError | src/utils/sysml_file_io.py:143 | for a list of dicts the only failure is a missing `@type` (KeyError) |
| SysmlFileIo.Names | src/utils/sysml_file_io.py:154-158 | fails exactly when some selected element has no name; otherwise the names formatted with `str()`, in order |
| SysmlFileIo.NamesKeyError | src/utils/sysml_file_io.py:154-158 | for dicts the only failure is a missing name (KeyError) |
| SysmlFileIo.Writer.constructor | src/utils/sysml_file_io.py:117-118 | no lines, indent level 0 |
| SysmlFileIo.Writer.Enter | src/utils/sysml_file_io.py:125-132 | appends the section header at the current indent and nests one level deeper |
| SysmlFileIo.Writer.Exit | src/utils/sysml_file_io.py:134-137 | un-nests one level and appends the closing brace at the new indent |
| SysmlFileIo.Writer.WriteLine | src/utils/sysml_file_io.py:139-140 | appends one statement ending in ";" at the current indent |
| SysmlFileIo.FileExporter.constructor | src/utils/sysml_file_io.py:94-95 | no lines |
| SysmlFileIo.FileExporter.WriteStatements | src/utils/sysml_file_io.py:153-158 | one statement per element, in order |
| SysmlFileIo.FileExporter.WriteDefinitions | src/utils/sysml_file_io.py:148-154 | the Definitions/PartDefinitions block, only when there is a definition |
| SysmlFileIo.FileExporter.WriteConfiguration | src/utils/sysml_file_io.py:156-158 | the Configuration block |
| SysmlFileIo.FileExporter.WriteModel | src/utils/sysml_file_io.py:146-158 | the whole layout inside `package Model` |
| SysmlFileIo.FileExporter.GenerateSysmlText | src/utils/sysml_file_io.py:97-161 | on success the lines are stored; an exception leaves the stored lines unchanged |
| SysmlFileIo.LayoutNested | src/utils/sysml_file_io.py:120-137 | the sections nest properly and close back to level 0 |
| SysmlFileIo.ExportBalanced | src/utils/sysml_file_io.py:120-158 | as many "{" as "}" in the text, for brace-free names |
| SysmlFileIo.ExportWellFormed | src/utils/sysml_file_io.py:127-140 | every line ends with "{", "}" or ";" plus a newline and is indented by a multiple of 4 spaces |
| SysmlFileIo.LayoutStatements | src/utils/sysml_file_io.py:143-158 | one `part def <name>` per definition, then one `part <name>` per usage, in input order |
| SysmlFileIo.LayoutSections | src/utils/sysml_file_io.py:146-158 | always opens with `package Model`, closes it last, and contains `package Configuration` |
| SysmlFileIo.DefinitionsSection | src/utils/sysml_file_io.py:148-154 | the Definitions and PartDefinitions packages appear exactly when there is a definition |
| SysmlFileIo.EmptyExport | src/utils/sysml_file_io.py:146-158 | an empty list gives only the Model and Configuration frames, no "part" line |
| SysmlFileIo.ExportItemsOk | src/utils/sysml_file_io.py:143-158 | exporting succeeds exactly when every element has `@type` and the elements of the two exported types have names |
| SysmlFileIo.ExportItemsKeyError | src/utils/sysml_file_io.py:143-158 | for a list of dicts every failure is a KeyError |
| SysmlFileIo.ExportOfString | src/utils/sysml_file_io.py:143 | a non-empty string input raises TypeError |
| SysmlFileIo.StatementParsed | src/utils/sysml_file_io.py:72-78 | the importer reads an exported statement back as the declaration it came from |
| SysmlFileIo.BraceParsed | src/utils/sysml_file_io.py:72-78 | a line in brace form, `part def X {` or `part X {`, reads as the same declaration as without the brace |
| SysmlFileIo.ExportImportRoundTrip | src/utils/sysml_file_io.py:72-158 | parsing the exported text gives back the definitions then the usages, for plain names |
| SysmlFileIo.SplitExt | src/utils/sysml_file_io.py:179 | base + extension is the path; the extension is empty or a "." followed by no "/" |
| SysmlFileIo.ExportPath | src/utils/sysml_file_io.py:179-185 | accepted exactly for no extension or ".sysml"; the result ends in ".sysml" and starts with the given path; otherwise that ValueError message |
| SysmlFileIo.ExportPathReadable | src/utils/sysml_file_io.py:179-185 | a path the exporter accepts is one the reader accepts |
| SysmlFileIo.ExportPathIdempotent | src/utils/sysml_file_io.py:179-185 | normalising an accepted path twice changes nothing |
| SysmlFileIo.SplitExtAppended | src/utils/sysml_file_io.py:179-181 | after appending ".sysml" to a path without an extension, that is its extension |
| SysmlFileIo.DirName | src/utils/sysml_file_io.py:188 | the folder is a prefix of the path |
| SysmlFileIo.ExportToFileWrites | src/utils/sysml_file_io.py:163-208 | writes exactly when the path is accepted and the folder exists or can be made, unless the file exists and the overwrite is not confirmed; writes the joined lines to a ".sysml" path |
| Seeds.PayloadKeys | demo/seeder/seeds.py:77-84 | a payload has exactly `name` and `@type`, plus `owner` when there is a parent |
| Seeds.PayloadValues | demo/seeder/seeds.py:77-84 | name and `@type` come from the element's name and type; owner is `{"@id": parent}` |
| Seeds.EntryJsonInjective | demo/seeder/seeds.py:86-95 | different entries give different DataVersion dicts |
| Seeds.Children | demo/seeder/seeds.py:99 | `element.get("children", [])` |
| Seeds.ElementOf | demo/seeder/seeds.py:71-103 | one element: its entry, followed by its children's entries when it has any |
| Seeds.ElementHead | demo/seeder/seeds.py:71-96 | a successful element is a dict with a name and type, and its entry comes first, with the next id and the caller's owner |
| Seeds.ChangeListFacts | demo/seeder/seeds.py:61-105 | exactly one entry per node of the tree; ids drawn in order; every owner is the caller's or an earlier entry; `id_map` assigned entry by entry |
| Seeds.ItemsFacts | demo/seeder/seeds.py:71-103 | the same for a list of siblings |
| Seeds.ElementFacts | demo/seeder/seeds.py:71-103 | the same for one element, whose first entry has the caller's owner |
| Seeds.ItemsPreorder | demo/seeder/seeds.py:96-103 | pre-order: item n's entry comes right after the entries of the items before it, with the caller's owner and the item's name and type |
| Seeds.AssignedLastWins | demo/seeder/seeds.py:75 | `id_map[name]` is the id of the last entry with that name |
| Seeds.AssignedUntouched | demo/seeder/seeds.py:75 | names not in the tree keep their earlier ids |
| Seeds.ItemsErrExtends | demo/seeder/seeds.py:71-103 | the first failing element's exception ends the whole list |
| Seeds.Seeder.constructor | demo/seeder/seeds.py:66-67 | an empty `id_map` and no ids drawn |
| Seeds.Seeder.BuildChangeList | demo/seeder/seeds.py:61-105 | the change list, `id_map` and the ids drawn are those of the specification; an exception is passed on |
| Seeds.Seeder.BuildElement | demo/seeder/seeds.py:71-103 | one loop pass: the element's entry then its children's |
| Seeds.Seeder.ParseProject | demo/seeder/seeds.py:107-124 | nothing is pushed when the project was not created; otherwise the pushes of the branch loop; a missing key raises |
| Seeds.MainPushesStops | demo/seeder/seeds.py:115-124 | an exception in the branch loop ends it |
| Seeds.MainPushesOnly | demo/seeder/seeds.py:115-124 | only branches named "main" push, each exactly once when the loop completes, all to the project's default branch |
| Seeds.MainStepOnly | demo/seeder/seeds.py:116-124 | one pass of the branch loop pushes at most one commit, exactly one for a "main" branch that completes, to the default branch |
| Frontend.NormalizeId | demo/ui/frontend.py:75-81 | None gives None; a string itself; a dict gives a value exactly when its `@id` is present and not None |
| Frontend.NormalizeIdReference | demo/ui/frontend.py:75-81 | a reference `{"@id": s}` and the string s normalise alike |
| Frontend.FallbackKeyInjective | demo/ui/frontend.py:92 | different indices give different fallback keys |
| Frontend.KeyAllShape | demo/ui/frontend.py:89-94 | one key per element; the keys of `id_map` are exactly those in `order` |
| Frontend.KeyAllDistinct | demo/ui/frontend.py:89-94 | when no id looks like a fallback key, the keys are distinct and each maps back to its own element; each key is the element's id or its fallback |
| Frontend.KeyedSnoc | demo/ui/frontend.py:89-94 | one more element keeps the keys distinct, bound to their own elements and of their form, when its id does not look like a fallback key |
| Frontend.FallbackCollision | demo/ui/frontend.py:89-94 | an id "__idx_1" on element 0 and none on element 1 give both the same key, so the first element is lost |
| Frontend.KidsMembers | demo/ui/frontend.py:99-104 | x is a child of p exactly when x is keyed and its owner's normalised key is p |
| Frontend.RootsMembers | demo/ui/frontend.py:99-104 | x is a root exactly when it is keyed and has no parent |
| Frontend.Ownership | demo/ui/frontend.py:99-104 | a key is a root exactly when it is nobody's child; a parent is a different, non-empty, existing key equal to the normalised owner; no key has two parents |
| Frontend.Text | demo/ui/frontend.py:117-118 | `(v or "").strip()`: AttributeError exactly for a truthy non-string; otherwise a trimmed string |
| Frontend.Label | demo/ui/frontend.py:117-119 | fails exactly when the name or the type cannot be read as text |
| Frontend.CaptionShape | demo/ui/frontend.py:117-120 | a blank name shows as "(unnamed)"; the type appears in parentheses exactly when it is not blank |
| Frontend.LinesIndented | demo/ui/frontend.py:110-125 | every line at depth d starts with 2·d spaces |
| Frontend.LinesOfIndented | demo/ui/frontend.py:122-128 | the same for a list of siblings |
| Frontend.LinesHead | demo/ui/frontend.py:110-125 | the cycle marker exactly for a key already on the path; otherwise the element's line, then its children one level deeper, right after it |
| Frontend.LinesMissing | demo/ui/frontend.py:116 | an unknown key raises KeyError |
| Frontend.LinesOfErrExtends | demo/ui/frontend.py:122-128 | the first failing sibling's exception ends the loop |
| Frontend.MarkdownEmpty | demo/ui/frontend.py:83-130 | no elements render as the empty string |
| Frontend.MarkdownCycleDropped | demo/ui/frontend.py:99-128 | two elements that own each other render as the empty text: neither is a root, so both are dropped and no cycle marker is written |
| Frontend.TreeWriter.constructor | demo/ui/frontend.py:107-108 | no lines, empty visiting set |
| Frontend.TreeWriter.AddLine | demo/ui/frontend.py:110-125 | appends exactly the lines of the specification and leaves `visiting` as it was on return |
| Frontend.TreeWriter.AddChildren | demo/ui/frontend.py:122-128 | the loop over a key's children, and over the roots at depth 0: appends their lines in order, `visiting` restored |
| Frontend.KeyElements | demo/ui/frontend.py:89-94 | the keying loop computes the keys and `id_map` |
| Frontend.LinkOwners | demo/ui/frontend.py:97-104 | the ownership loop computes the children lists and the roots in input order |
| Frontend.LinkAdvance | demo/ui/frontend.py:99-104 | one more key joins its parent's list or the roots, and nothing else changes |
| Frontend.ModelToMarkdown | demo/ui/frontend.py:83-130 | renders the roots in input order at depth 0, joined with newlines |
| Json.Index | src/sysml2/tooling.py:59 | `x[k]`: a value exactly for a dict with the key; KeyError for a dict without it, TypeError for anything else |
| Json.Iterate | src/utils/json_sanitize.py:5 | `for x in v`: fails exactly for None, booleans and numbers; empty exactly for a falsy value |
| Json.In | src/sysml2/tooling.py:65 | `k in v`: on a dict, whether the key is present; TypeError for None, booleans and numbers |
| Json.Remove | src/sysml2/tooling.py:71 | `dict.pop(k)`: the key is gone and every other key reads as before |
| Json.PutLookup | src/sysml2/tooling.py:71 | `d[k] = v`: k reads v and every other key reads as before |
| PyText.Str | demo/ui/frontend.py:80-81 | `str(v)`: a string itself, anything else its `repr` |
| PyText.DigitsRoundTrip | demo/ui/frontend.py:92 | the decimal digits of an index read back as that index |
| PyText.StripTwice | src/utils/sysml_file_io.py:72 | stripping is idempotent |
| PyText.StripAround | src/utils/sysml_file_io.py:77 | strip removes exactly the surrounding whitespace |
| PyText.RStripCharAround | src/utils/sysml_file_io.py:72 | `rstrip(c)` removes exactly the trailing run of c |

## Left out

- HTTP I/O: the REST wrappers, `send_request`, `create_project` and the seeder's `push_commit` are not modelled. The server's answers are parameters: the client's `Remote`, and the seeder's `response`. A push is recorded in the client's ghost `pushed` list.
- The LLM service, the prompt module, the change engine, the Flask app, the logger configuration and the SysML type table are not part of this model. They are foreign calls or glue.
- Logging calls and `print` are not modelled; `generate_sysml_text` printing its lines is one such call.
- `print_owned_elements` and `print_project_structure` are not modelled: they are console output driven by remote fetches.
- Chroma and OpenAI embeddings are not modelled. The similarity ranking in `query` is a function parameter of the store. The collection is a list of documents with distinct ids. Chroma's own errors are not modelled.
- VectorStore.UpsertAll: a batch that repeats an id is stored one document at a time, the last one winning. Chroma refuses duplicate ids within one `add_documents` call; that error is not modelled.
- `uuid4` is replaced by an id `supply` function that the seeder draws from in order.
- YAML loading and `main` in the seeder are not modelled. `parse_project` receives the parsed data and the creation response.
- File-system effects are parameters: the lines `readlines` returns, and the existing paths, the `makedirs` error and the overwrite answer for `export_to_file`. The effect of `export_to_file` is the path and text it would write.
- `os.path.splitext` and `dirname` are modelled for POSIX paths only, with "/" as the only separator.
- `lower()` in the overwrite prompt is modelled only for the answers "y" and "Y".
- SysmlFileIo.ExportImportRoundTrip: the round trip is stated over the list of lines, not over the file's bytes. It is stated only for plain names: non-empty, without a newline, without leading or trailing whitespace, not ending in ";" or "{", and, for a usage, not starting with "def". Other characters are allowed.
- SysmlFileIo.ExportBalanced: stated for names without braces. A name containing "{" unbalances the text.
- `interpret` strips every trailing ";" (`rstrip(";")`), not just one. The model follows the code.
- Floating point (the token-reduction percentage) and the Streamlit UI, REST helpers and session state of the demo UI are not modelled.
- `str()`/`repr()` follow Python's rules for ASCII; other characters are printed as they are. JSON floats are not modelled.
- SysmlFileIo.NewEntries: entries are compared structurally. Python's `not in` compares dicts regardless of key order and treats `True` as `1` and `False` as `0`. An entry that equals an earlier one only in that looser sense counts as new here, where Python would drop it.
- ContextManager.SeenIds: ids are compared structurally. A Python set treats `True` and `1` (and `False` and `0`) as one member, so an id `1` counts as seen after an id `True` in Python but not in the model. The same holds for ContextManager.AddRelated.
- VectorStore.Dedup: the `@id` keys of `unique_by_id` are compared structurally. Python merges `True` with `1` and `False` with `0` as dict keys.
- Seeds.ChangeList: the names that key `id_map` are compared structurally. Python merges `True` with `1` and `False` with `0` as dict keys.
- Tooling.InvokeTool: `StructuredTool.invoke` is modelled as a direct keyword call. The library first validates the arguments against the schema it infers from the function. A missing argument then raises pydantic's ValidationError, which the model reports as TypeError. Extra keys may be dropped or refused, depending on the schema's configuration.
- Tooling.DeleteToolStage: an extra key raises TypeError in the model. Under `StructuredTool.invoke` the schema may drop it, and then the removal is staged.
- The agent's recursion limit and other errors raised inside LangChain are not modelled.
- Seeds.Seeder.BuildChangeList: after an exception the model does not say what the shared `id_map` holds.
- Frontend.Ownership: "every element is emitted at most once" is proved as its ingredients: distinct keys (Frontend.KeyAllDistinct) and at most one parent per key. It is not proved over the rendered lines.
- Frontend.KeyAllDistinct: key distinctness is proved only when no element's id has the form "__idx_<n>". Frontend.FallbackCollision shows a collision otherwise.
- The Python exception objects' messages are modelled only where the source writes them itself (ValueError and OSError); the built-in exceptions carry only their class.

## Findings

| source | as written | input that shows it | evidently intended | confidence | as-written member | corrected member |
|---|---|---|---|---|---|---|
| src/utils/sysml_file_io.py:75-78 | `interpret` calls `client.create_element(type, name)`, which `SysMLClient` does not define, so the first part line raises AttributeError | a file whose only line is `part Wheel;` | stage a create of `{"@type": "PartUsage", "name": "Wheel"}` through `client.create` | high; not executed | SysmlFileIo.FileImporter.InterpretAsWritten | SysmlFileIo.FileImporter.Interpret |
