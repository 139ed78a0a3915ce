/**
 * The database's append-only guard: a middleware run before every query that
 * refuses deletes of immutable models, updates of immutable models other than
 * `Source`, and `Source` updates that touch an archive field; every other
 * query is handed on unchanged.
 */
module AppendOnly {
  import opened Wrappers

  const ImmutableModels: set<string> := {"Statement", "Affiliation", "Source", "AuditLog", "ProfileVersion"}
  const RestrictedFields: set<string> := {"archivedUrl", "archivedAt", "archiveMethod", "originalUrl"}

  /**
   * A query as the middleware sees it: the model (absent for raw queries),
   * the action, and the keys of `args.data` when `args.data` is present.
   */
  datatype Params = Params(model: Option<string>, action: string, dataKeys: Option<set<string>>)

  /** The guard's outcome: the error it throws, or the params it hands to `next`. */
  datatype Guarded = Thrown(message: string) | Forwarded(params: Params)

  predicate IsImmutable(model: Option<string>) {
    model.Some? && model.value in ImmutableModels
  }

  predicate IsDelete(action: string) {
    action == "delete" || action == "deleteMany"
  }

  predicate IsUpdate(action: string) {
    action == "update" || action == "updateMany"
  }

  /** `args.data` is present and names one of the archive fields. */
  predicate TouchesArchive(dataKeys: Option<set<string>>) {
    dataKeys.Some? && dataKeys.value * RestrictedFields != {}
  }

  /** The middleware body. */
  function Guard(p: Params): (g: Guarded)
    ensures g.Thrown? <==>
      IsImmutable(p.model)
      && (IsDelete(p.action) || (IsUpdate(p.action) && (p.model.value != "Source" || TouchesArchive(p.dataKeys))))
    ensures g.Forwarded? ==> g.params == p
  {
    if IsDelete(p.action) && IsImmutable(p.model) then Thrown(DeleteMessage(p.model.value))
    else if IsUpdate(p.action) && IsImmutable(p.model) then
      if p.model.value == "Source" then
        if p.dataKeys.Some? && TouchesArchive(p.dataKeys) then Thrown(ArchiveMessage)
        else Forwarded(p)
      else Thrown(UpdateMessage(p.model.value))
    else Forwarded(p)
  }

  function DeleteMessage(model: string): string {
    "Cannot delete " + model + ": This model is append-only and immutable. "
    + "Use versioning or create a new record instead."
  }

  function UpdateMessage(model: string): string {
    "Cannot update " + model + ": This model is append-only and immutable. "
    + "Create a new record or use the versioning system instead."
  }

  const ArchiveMessage: string :=
    "Cannot update Source archive fields (archivedUrl, archivedAt, archiveMethod, originalUrl): "
    + "Source archive data is immutable. Create a new Source instead."

  /** Only deletes and updates are inspected: creates, upserts and reads always pass. */
  lemma {:induction false} OtherActionsPass(p: Params)
    requires !IsDelete(p.action) && !IsUpdate(p.action)
    ensures Guard(p) == Forwarded(p)
  {
  }

  /** Models outside the immutable list, and queries without a model, always pass. */
  lemma {:induction false} MutableModelsPass(p: Params)
    requires !IsImmutable(p.model)
    ensures Guard(p) == Forwarded(p)
  {
  }

  /** A `Source` update without data, or with data free of archive fields, passes. */
  lemma {:induction false} SourceMetadataUpdatePasses(action: string, keys: set<string>)
    requires IsUpdate(action)
    requires forall f :: f in keys ==> f !in RestrictedFields
    ensures Guard(Params(Some("Source"), action, None)).Forwarded?
    ensures Guard(Params(Some("Source"), action, Some(keys))).Forwarded?
  {
  }

  /** Adding keys to a refused `Source` update never makes it pass. */
  lemma {:induction false} SourceRefusalMonotone(action: string, keys: set<string>, more: set<string>)
    requires keys <= more
    requires Guard(Params(Some("Source"), action, Some(keys))).Thrown?
    ensures Guard(Params(Some("Source"), action, Some(more))).Thrown?
  {
    assert keys * RestrictedFields <= more * RestrictedFields;
  }
}
