/**
 * The trash endpoint and the confirmation dialog of the second-generation handler
 * (`v2/entityTrashController.go`); the first generation's trash endpoint is the same code.
 */
module TrashController {
  import opened Wrappers
  import opened GoStrings
  import opened CrudTypes
  import opened Submission

  const MsgTrashFailed := "Entity failed to be trashed: "
  const MsgTrashed := "Entity trashed successfully"

  /**
   * `pageEntityTrashAjax`: the id is `entity_id` with ASCII spaces trimmed; an empty id is refused
   * without calling the callback; otherwise the callback's error is reported with a fixed prefix,
   * and success echoes the trimmed id.
   */
  function PageEntityTrashAjax(crud: Crud, request: Request): (out: Outcome)
    requires EntityId(request) != "" ==> crud.funcTrash.Some?
    ensures EntityId(request) == "" ==> out == Error(MsgIdRequired)
    ensures out.Success? <==> EntityId(request) != "" && crud.funcTrash.value(EntityId(request)).Nil?
    ensures out.Success? ==> out == Success(MsgTrashed, EntityId(request))
    ensures EntityId(request) != "" && crud.funcTrash.value(EntityId(request)).Err?
      ==> out == Error(MsgTrashFailed + crud.funcTrash.value(EntityId(request)).message)
  {
    var id := EntityId(request);
    if id == "" then Error(MsgIdRequired)
    else
      var err := crud.funcTrash.value(id);
      if err.Err? then Error(MsgTrashFailed + err.message) else Success(MsgTrashed, id)
  }

  /**
   * A request whose id is missing or only spaces is refused the same way whatever the trash
   * callback, and a trashed entity's echoed id neither starts nor ends with a space.
   */
  lemma TrashIdRules(crud: Crud, trash: Option<TrashFunc>, request: Request)
    requires EntityId(request) != "" ==> crud.funcTrash.Some? && trash.Some?
    ensures (forall k :: 0 <= k < |Req(request, "entity_id", "")| ==> Req(request, "entity_id", "")[k] == ' ')
      ==> PageEntityTrashAjax(crud, request) == PageEntityTrashAjax(crud.(funcTrash := trash), request)
            == Error(MsgIdRequired)
    ensures var out := PageEntityTrashAjax(crud, request);
      out.Success? ==> out.entityId != "" && out.entityId[0] != ' ' && out.entityId[|out.entityId| - 1] != ' '
  {
    var raw := Req(request, "entity_id", "");
    TrimBlanksEdges(raw);
    assert EntityId(request) == TrimBlanks(raw);
  }

  /** The trash outcome never depends on the update, create or fetch callbacks. */
  lemma TrashUsesOnlyTrashCallback(crud: Crud, other: Crud, request: Request)
    requires other.funcTrash == crud.funcTrash
    requires EntityId(request) != "" ==> crud.funcTrash.Some?
    ensures PageEntityTrashAjax(other, request) == PageEntityTrashAjax(crud, request)
  {
  }

  /** The confirmation dialog: element id, heading, question, the two buttons and the confirm action. */
  datatype ConfirmDialog = ConfirmDialog(
    elementId: string,
    heading: string,
    question: string,
    dismissLabel: string,
    confirmLabel: string,
    confirmAction: string)

  const TrashModal := ConfirmDialog(
    "ModalEntityTrash",
    "Trash Entity",
    "Are you sure you want to move this entity to trash bin?",
    "Close",
    "Move to trash bin",
    "entityTrash")

  /** `pageEntitiesEntityTrashModal` */
  function PageEntitiesEntityTrashModal(crud: Crud): ConfirmDialog
  {
    TrashModal
  }

  /** The dialog is fixed: no configuration field changes it. */
  lemma TrashModalIsStatic(c1: Crud, c2: Crud)
    ensures PageEntitiesEntityTrashModal(c1) == PageEntitiesEntityTrashModal(c2) == TrashModal
  {
  }
}
