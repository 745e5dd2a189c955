/** `NewCrud`: validate a configuration and copy it into a handler. */
module Construction {
  import opened Wrappers
  import opened CrudTypes

  const ErrFuncRowsRequired := "FuncRows function is required"
  const ErrUpdateFieldsRequired := "UpdateFields is required"
  const ErrFuncUpdateRequired := "FuncUpdate function is required"

  /** `Crud{}`, Go's zero value, which every error path returns. */
  const ZeroCrud := Crud([], [], "", "", "", "", None, None, None, None, None, None, None, None,
    "", [], [])

  /** Go's `len` of a possibly nil slice. */
  function Len<T>(s: Option<seq<T>>): nat
  {
    |s.GetOr([])|
  }

  /** Update is offered when both update callbacks are set and there is a field to edit. */
  predicate IsUpdateEnabled(config: CrudConfig)
  {
    config.funcUpdate.Some? && config.funcFetchUpdateData.Some? && Len(config.updateFields) > 0
  }

  /** The configuration a handler holds: the inverse of the copy `NewCrud` makes. */
  function ConfigOf(crud: Crud): CrudConfig
  {
    CrudConfig(crud.columnNames, crud.createFields, crud.endpoint, crud.entityNamePlural,
      crud.entityNameSingular, crud.fileManagerUrl, crud.funcCreate, crud.funcFetchReadData,
      crud.funcFetchUpdateData, crud.funcLayout, crud.funcRows, crud.funcTrash, crud.funcUpdate,
      crud.homeUrl, crud.readFields, Some(crud.updateFields), crud.funcReadExtras)
  }

  /**
   * The guards run in order: a nil rows callback first, whatever else the configuration
   * holds, then a nil update field list (an empty one passes). The third guard can never
   * fire. Failure yields the zero handler; success copies every field unchanged.
   */
  function NewCrud(config: CrudConfig): (result: (Crud, Option<string>))
    ensures config.funcRows.None? ==> result == (ZeroCrud, Some(ErrFuncRowsRequired))
    ensures config.funcRows.Some? && config.updateFields.None?
      ==> result == (ZeroCrud, Some(ErrUpdateFieldsRequired))
    ensures result.1 != Some(ErrFuncUpdateRequired)
    ensures result.1.None? <==> config.funcRows.Some? && config.updateFields.Some?
    ensures result.1.Some? ==> result.0 == ZeroCrud
    ensures result.1.None? ==> ConfigOf(result.0) == config
  {
    if config.funcRows.None? then
      (ZeroCrud, Some(ErrFuncRowsRequired))
    else if config.updateFields.None? then
      (ZeroCrud, Some(ErrUpdateFieldsRequired))
    else if IsUpdateEnabled(config) && config.funcUpdate.None? then
      (ZeroCrud, Some(ErrFuncUpdateRequired))
    else
      var crud := Crud(
        config.columnNames,
        config.createFields,
        config.endpoint,
        config.entityNamePlural,
        config.entityNameSingular,
        config.fileManagerUrl,
        config.funcCreate,
        config.funcReadExtras,
        config.funcFetchReadData,
        config.funcFetchUpdateData,
        config.funcLayout,
        config.funcRows,
        config.funcTrash,
        config.funcUpdate,
        config.homeUrl,
        config.readFields,
        config.updateFields.value);
      (crud, None)
  }

  /** Enabling update already requires the update callback, so its own guard is dead code. */
  lemma UpdateGuardUnreachable(config: CrudConfig)
    ensures !(IsUpdateEnabled(config) && config.funcUpdate.None?)
  {
  }
}
