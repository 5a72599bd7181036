/** The decision logic of the secret delete menu: which capability paths are
    checked before delete-family actions are offered, which permission each
    action reads from its capability record, and what a delete request does
    (which store call it issues, with which version, and how it reacts to
    the reply). */
module SecretDeleteMenu {
  import opened JsValues

  // ---------------------------------------------------------------------
  // Component arguments
  // ---------------------------------------------------------------------

  datatype Engine = Engine(id: Option<string>)

  datatype SelectedVersion = SelectedVersion(version: Option<int>)

  /** The `model` argument: the secret as loaded from its metadata. */
  datatype SecretModel = SecretModel(
    id: Option<string>,
    backend: Option<string>,
    engine: Option<Engine>,
    currentVersion: Option<int>,
    selectedVersion: Option<SelectedVersion>)

  /** The `modelForData` argument: the last fetched secret data. Its `id`
      is the composite identifier, the JSON text of `[backend, id]`. */
  datatype ModelForData = ModelForData(id: Option<string>, version: Option<int>)

  /** The component's `args`. Truthy flags are modelled as booleans. */
  datatype Args = Args(
    model: Option<SecretModel>,
    modelForData: Option<ModelForData>,
    mode: Option<string>,
    isV2: bool,
    canReadSecretMetadata: bool)

  /** A composite identifier once decoded. */
  datatype SecretIdentity = SecretIdentity(backend: string, id: string)

  /** Decoding of a composite identifier (`JSON.parse` followed by the
      destructuring `[backend, id]`); `None` when it throws. */
  type IdDecoder = string -> Option<SecretIdentity>

  /** The target of one capability check: `Value(None)` when no check is
      issued, `Value(Some(p))` for a check of path `p`, `Throws` when
      computing it raises. */
  type CapabilityPath = Eval<Option<string>>

  // ---------------------------------------------------------------------
  // Capability paths
  // ---------------------------------------------------------------------

  /** The guard of the undelete and destroy-version paths: `args`,
      `args.modelForData` and `args.modelForData.id` are all truthy. */
  predicate HasCompositeId(a: Option<Args>)
  {
    a.Some? && a.value.modelForData.Some? && Truthy(a.value.modelForData.value.id)
  }

  function CompositeId(a: Option<Args>): string
    requires HasCompositeId(a)
  {
    a.value.modelForData.value.id.value
  }

  /** `{backend}{segment}{id}` from the decoded composite identifier. */
  function CompositeIdPath(a: Option<Args>, decode: IdDecoder, segment: string): CapabilityPath
  {
    if !HasCompositeId(a) then Value(None)
    else
      match decode(CompositeId(a))
      case None => Throws
      case Some(ident) => Value(Some(ident.backend + segment + ident.id))
  }

  /** The path whose `update` capability allows undeleting a version. */
  function UndeleteVersionPath(a: Option<Args>, decode: IdDecoder): (r: CapabilityPath)
    ensures r == Value(None) <==> !HasCompositeId(a)
    ensures r == Throws <==> HasCompositeId(a) && decode(CompositeId(a)).None?
    ensures r.Value? && r.value.Some? ==>
      var ident := decode(CompositeId(a)).value;
      r.value.value == ident.backend + "/undelete/" + ident.id
  {
    CompositeIdPath(a, decode, "/undelete/")
  }

  /** The path whose `update` capability allows destroying a version. */
  function DestroyVersionPath(a: Option<Args>, decode: IdDecoder): (r: CapabilityPath)
    ensures r == Value(None) <==> !HasCompositeId(a)
    ensures r == Throws <==> HasCompositeId(a) && decode(CompositeId(a)).None?
    ensures r.Value? && r.value.Some? ==>
      var ident := decode(CompositeId(a)).value;
      r.value.value == ident.backend + "/destroy/" + ident.id
  {
    CompositeIdPath(a, decode, "/destroy/")
  }

  /** The guard of the metadata path: `model`, `model.engine` and
      `model.id` are all truthy. */
  predicate HasMetadataIdentity(args: Args)
  {
    args.model.Some? && args.model.value.engine.Some? && Truthy(args.model.value.id)
  }

  /** The path whose `delete` capability allows destroying all versions. */
  function MetadataPath(a: Option<Args>): (r: CapabilityPath)
    ensures r == Throws <==> a.None?
    ensures r == Value(None) <==> a.Some? && !HasMetadataIdentity(a.value)
    ensures r.Value? && r.value.Some? ==>
      var m := a.value.model.value;
      r.value.value == Interpolate(m.engine.value.id) + "/metadata/" + m.id.value
  {
    if a.None? then Throws
    else if !HasMetadataIdentity(a.value) then Value(None)
    else
      var m := a.value.model.value;
      Value(Some(Interpolate(m.engine.value.id) + "/metadata/" + m.id.value))
  }

  /** The guard shared by the data and soft-delete paths: no model is
      loaded, or the secret is being created. */
  predicate SkipsDataChecks(args: Args)
  {
    args.model.None? || args.mode == Some("create")
  }

  /** A data-level path: `{engine.id}{v2Segment}{id}` on a v2 engine,
      `{backend}/{id}` on a v1 engine. */
  function EngineScopedPath(a: Option<Args>, v2Segment: string): CapabilityPath
  {
    if a.None? then Throws
    else if SkipsDataChecks(a.value) then Value(None)
    else
      var m := a.value.model.value;
      if a.value.isV2 && m.engine.None? then Throws
      else
        var backend := if a.value.isV2 then Interpolate(m.engine.value.id) else Interpolate(m.backend);
        var id := Interpolate(m.id);
        Value(Some(if a.value.isV2 then backend + v2Segment + id else backend + "/" + id))
  }

  /** The path whose `delete` capability allows deleting the secret's data. */
  function SecretDataPath(a: Option<Args>): (r: CapabilityPath)
    ensures r == Value(None) <==> a.Some? && SkipsDataChecks(a.value)
    ensures r == Throws <==>
      a.None? || (!SkipsDataChecks(a.value) && a.value.isV2 && a.value.model.value.engine.None?)
    ensures r.Value? && r.value.Some? && a.value.isV2 ==>
      var m := a.value.model.value;
      r.value.value == Interpolate(m.engine.value.id) + "/data/" + Interpolate(m.id)
    ensures r.Value? && r.value.Some? && !a.value.isV2 ==>
      var m := a.value.model.value;
      r.value.value == Interpolate(m.backend) + "/" + Interpolate(m.id)
  {
    EngineScopedPath(a, "/data/")
  }

  /** The path whose `update` capability allows soft-deleting the secret. */
  function SecretSoftDataPath(a: Option<Args>): (r: CapabilityPath)
    ensures r == Value(None) <==> a.Some? && SkipsDataChecks(a.value)
    ensures r == Throws <==>
      a.None? || (!SkipsDataChecks(a.value) && a.value.isV2 && a.value.model.value.engine.None?)
    ensures r.Value? && r.value.Some? && a.value.isV2 ==>
      var m := a.value.model.value;
      r.value.value == Interpolate(m.engine.value.id) + "/delete/" + Interpolate(m.id)
    ensures r.Value? && r.value.Some? && !a.value.isV2 ==>
      var m := a.value.model.value;
      r.value.value == Interpolate(m.backend) + "/" + Interpolate(m.id)
  {
    EngineScopedPath(a, "/delete/")
  }

  /** The undelete and destroy-version paths depend on `modelForData`
      alone: neither the model, the mode nor the engine version gates them. */
  lemma VersionPathsIgnoreModelModeAndEngine(a: Args, b: Args, decode: IdDecoder)
    requires a.modelForData == b.modelForData
    ensures UndeleteVersionPath(Some(a), decode) == UndeleteVersionPath(Some(b), decode)
    ensures DestroyVersionPath(Some(a), decode) == DestroyVersionPath(Some(b), decode)
  {
  }

  /** The metadata path depends on the model alone, not on the mode or the
      engine version. */
  lemma MetadataPathIgnoresModeAndEngine(a: Args, b: Args)
    requires a.model == b.model
    ensures MetadataPath(Some(a)) == MetadataPath(Some(b))
  {
  }

  /** On a v1 engine the data and soft-delete checks target one path. */
  lemma V1DataPathsCoincide(a: Args)
    requires !a.isV2
    ensures SecretDataPath(Some(a)) == SecretSoftDataPath(Some(a))
  {
  }

  /** For one backend and one secret id the five v2 path shapes are
      pairwise different. */
  lemma V2PathShapesDistinct(backend: string, id: string)
    ensures var undelete, destroy := backend + "/undelete/" + id, backend + "/destroy/" + id;
      var metadata, data, soft := backend + "/metadata/" + id, backend + "/data/" + id, backend + "/delete/" + id;
      undelete != destroy && undelete != metadata && undelete != data && undelete != soft &&
      destroy != metadata && destroy != data && destroy != soft &&
      metadata != data && metadata != soft && data != soft
  {
    var k := |backend|;
    var undelete, destroy := backend + "/undelete/" + id, backend + "/destroy/" + id;
    var metadata, data, soft := backend + "/metadata/" + id, backend + "/data/" + id, backend + "/delete/" + id;
    assert undelete[k + 1] == 'u';
    assert destroy[k + 1] == 'd' && destroy[k + 2] == 'e' && destroy[k + 3] == 's';
    assert metadata[k + 1] == 'm';
    assert data[k + 1] == 'd' && data[k + 2] == 'a';
    assert soft[k + 1] == 'd' && soft[k + 2] == 'e' && soft[k + 3] == 'l';
  }

  /** On a v2 engine, when the composite identifier names the loaded
      secret, the five capability checks are all issued and target five
      different paths, so each permission is read from its own record. */
  lemma V2CapabilityPathsDistinct(a: Args, decode: IdDecoder)
    requires a.isV2 && a.mode != Some("create")
    requires HasMetadataIdentity(a) && HasCompositeId(Some(a))
    requires decode(CompositeId(Some(a))) ==
      Some(SecretIdentity(Interpolate(a.model.value.engine.value.id), a.model.value.id.value))
    ensures var paths := [UndeleteVersionPath(Some(a), decode), DestroyVersionPath(Some(a), decode),
        MetadataPath(Some(a)), SecretDataPath(Some(a)), SecretSoftDataPath(Some(a))];
      (forall i :: 0 <= i < 5 ==> paths[i].Value? && paths[i].value.Some?) &&
      (forall i, j :: 0 <= i < j < 5 ==> paths[i] != paths[j])
  {
    V2PathShapesDistinct(Interpolate(a.model.value.engine.value.id), a.model.value.id.value);
  }

  // ---------------------------------------------------------------------
  // Permission flags
  // ---------------------------------------------------------------------

  /** A capability record as returned by a capability query. */
  datatype Capabilities = Capabilities(canRead: bool, canUpdate: bool, canDelete: bool)

  /** The capability a permission flag reads from its record. */
  datatype Capability = Update | Delete

  predicate Grants(c: Capabilities, which: Capability)
  {
    match which
    case Update => c.canUpdate
    case Delete => c.canDelete
  }

  /** The check of `path` has resolved and grants `which`. */
  predicate Granted(path: CapabilityPath, resolved: map<string, Capabilities>, which: Capability)
  {
    path.Value? && path.value.Some? && path.value.value in resolved && Grants(resolved[path.value.value], which)
  }

  /** A permission flag: the chosen capability of the record fetched for
      `path`. No path, or a query still pending (absent from `resolved`),
      reads as false. */
  function Permission(path: CapabilityPath, resolved: map<string, Capabilities>, which: Capability): (r: Eval<bool>)
    ensures r == Throws <==> path == Throws
    ensures r == Value(true) <==> Granted(path, resolved, which)
    ensures path == Value(None) ==> r == Value(false)
  {
    match path
    case Throws => Throws
    case Value(None) => Value(false)
    case Value(Some(p)) => Value(p in resolved && Grants(resolved[p], which))
  }

  function CanUndeleteVersion(a: Option<Args>, decode: IdDecoder, resolved: map<string, Capabilities>): (r: Eval<bool>)
    ensures r == Value(true) <==> Granted(UndeleteVersionPath(a, decode), resolved, Update)
    ensures r == Throws <==> UndeleteVersionPath(a, decode) == Throws
    ensures !HasCompositeId(a) ==> r == Value(false)
  {
    Permission(UndeleteVersionPath(a, decode), resolved, Update)
  }

  function CanDestroyVersion(a: Option<Args>, decode: IdDecoder, resolved: map<string, Capabilities>): (r: Eval<bool>)
    ensures r == Value(true) <==> Granted(DestroyVersionPath(a, decode), resolved, Update)
    ensures r == Throws <==> DestroyVersionPath(a, decode) == Throws
    ensures !HasCompositeId(a) ==> r == Value(false)
  {
    Permission(DestroyVersionPath(a, decode), resolved, Update)
  }

  function CanDestroyAllVersions(a: Option<Args>, resolved: map<string, Capabilities>): (r: Eval<bool>)
    ensures r == Value(true) <==> Granted(MetadataPath(a), resolved, Delete)
    ensures r == Throws <==> MetadataPath(a) == Throws
    ensures a.Some? && !HasMetadataIdentity(a.value) ==> r == Value(false)
  {
    Permission(MetadataPath(a), resolved, Delete)
  }

  function CanDeleteSecretData(a: Option<Args>, resolved: map<string, Capabilities>): (r: Eval<bool>)
    ensures r == Value(true) <==> Granted(SecretDataPath(a), resolved, Delete)
    ensures r == Throws <==> SecretDataPath(a) == Throws
    ensures a.Some? && SkipsDataChecks(a.value) ==> r == Value(false)
  {
    Permission(SecretDataPath(a), resolved, Delete)
  }

  function CanSoftDeleteSecretData(a: Option<Args>, resolved: map<string, Capabilities>): (r: Eval<bool>)
    ensures r == Value(true) <==> Granted(SecretSoftDataPath(a), resolved, Update)
    ensures r == Throws <==> SecretSoftDataPath(a) == Throws
    ensures a.Some? && SkipsDataChecks(a.value) ==> r == Value(false)
  {
    Permission(SecretSoftDataPath(a), resolved, Update)
  }

  /** On a v1 engine both data-level flags read the same record: delete
      permission from its `canDelete`, soft-delete from its `canUpdate`. */
  lemma V1FlagsShareOneRecord(a: Args, resolved: map<string, Capabilities>)
    requires !a.isV2 && !SkipsDataChecks(a)
    ensures var p := Interpolate(a.model.value.backend) + "/" + Interpolate(a.model.value.id);
      && CanDeleteSecretData(Some(a), resolved) == Value(p in resolved && resolved[p].canDelete)
      && CanSoftDeleteSecretData(Some(a), resolved) == Value(p in resolved && resolved[p].canUpdate)
  {
  }

  // ---------------------------------------------------------------------
  // Latest version
  // ---------------------------------------------------------------------

  /** Whether the selected version is the secret's current version; false
      when no model is loaded. */
  function IsLatestVersion(a: Option<Args>): (r: Eval<bool>)
    ensures a.Some? && a.value.model.None? ==> r == Value(false)
    ensures r == Throws <==>
      a.None? || (a.value.model.Some? && a.value.model.value.selectedVersion.None?)
    ensures r == Value(true) <==>
      && a.Some? && a.value.model.Some? && a.value.model.value.selectedVersion.Some?
      && a.value.model.value.currentVersion == a.value.model.value.selectedVersion.value.version
  {
    if a.None? then Throws
    else if a.value.model.None? then Value(false)
    else
      var m := a.value.model.value;
      if m.selectedVersion.None? then Throws
      else Value(m.currentVersion == m.selectedVersion.value.version)
  }

  // ---------------------------------------------------------------------
  // Error messages
  // ---------------------------------------------------------------------

  const Separator := ". "
  const GenericError := "Something went wrong. Check the Vault logs for more information."

  /** The text flashed for a failed delete: the error strings joined by
      ". ", or the generic message when that join is missing or empty. */
  function ErrorMessage(errors: Option<seq<string>>): (r: string)
    ensures r != ""
    ensures errors.Some? && Join(errors.value, Separator) != "" ==> r == Join(errors.value, Separator)
    ensures errors.None? ==> r == GenericError
  {
    if errors.Some? && Join(errors.value, Separator) != "" then Join(errors.value, Separator)
    else GenericError
  }

  /** The generic message appears exactly when there are no errors, an
      empty list, a single empty string, or errors that join to that very
      text. */
  lemma ErrorMessageIsGenericIff(errors: Option<seq<string>>)
    ensures ErrorMessage(errors) == GenericError <==>
      errors.None? || errors.value == [] || errors.value == [""] || Join(errors.value, Separator) == GenericError
  {
    if errors.Some? {
      JoinIsEmptyIff(errors.value, Separator);
    }
  }

  /** A single non-empty error is shown verbatim; several errors, even
      empty ones, are shown as their join, which starts with the first and
      ends with the last. */
  lemma ErrorMessageShowsErrors(errors: seq<string>)
    requires errors != [] && (|errors| > 1 || errors[0] != "")
    ensures var r := ErrorMessage(Some(errors));
      && |errors[0]| <= |r| && r[..|errors[0]|] == errors[0]
      && |errors[|errors| - 1]| <= |r| && r[|r| - |errors[|errors| - 1]|..] == errors[|errors| - 1]
      && (|errors| == 1 ==> r == errors[0])
      && (|errors| > 1 ==> r == Join(errors, Separator))
  {
    JoinBoundaries(errors, Separator);
    if |errors| > 1 {
      JoinIsEmptyIff(errors, Separator);
    }
  }

  // ---------------------------------------------------------------------
  // Delete dispatch
  // ---------------------------------------------------------------------

  const ListRootRoute := "vault.cluster.secrets.backend.list-root"

  /** The delete types that remove the whole secret rather than one version. */
  predicate RemovesWholeSecret(deleteType: string)
  {
    deleteType == "destroy-all-versions" || deleteType == "v1"
  }

  /** A call into the store. */
  datatype StoreCall =
    | DestroyRecord
    | V2DeleteOperation(id: Option<string>, deleteType: string, version: Option<int>)

  /** The version passed to a versioned delete: without read access to the
      metadata, the version of the fetched data; otherwise none, so that
      the store uses its own default. */
  function VersionOverride(args: Args): (v: Option<int>)
    ensures args.canReadSecretMetadata ==> v == None
    ensures !args.canReadSecretMetadata && args.modelForData.Some? ==> v == args.modelForData.value.version
    ensures args.modelForData.None? ==> v == None
  {
    if !args.canReadSecretMetadata && args.modelForData.Some? then args.modelForData.value.version
    else None
  }

  /** The store call a delete request issues: none for a falsy type, the
      whole-record destroy for "destroy-all-versions" and "v1", the
      versioned delete for every other type; `Throws` when the argument it
      dereferences is missing. */
  function DeleteCall(deleteType: Option<string>, a: Option<Args>): (r: Eval<Option<StoreCall>>)
    ensures !Truthy(deleteType) ==> r == Value(None)
    ensures Truthy(deleteType) ==> r != Value(None)
    ensures Truthy(deleteType) && RemovesWholeSecret(deleteType.value) ==>
      && (r == Value(Some(DestroyRecord)) <==> a.Some? && a.value.model.Some?)
      && (r == Throws <==> a.None? || a.value.model.None?)
    ensures Truthy(deleteType) && !RemovesWholeSecret(deleteType.value) ==>
      && (r == Throws <==> a.None? || a.value.modelForData.None?)
      && (r.Value? ==> r.value == Some(V2DeleteOperation(a.value.modelForData.value.id, deleteType.value,
                                                          VersionOverride(a.value))))
    ensures r.Value? && r.value.Some? && r.value.value.V2DeleteOperation? ==> !RemovesWholeSecret(deleteType.value)
    ensures r == Value(Some(DestroyRecord)) ==> RemovesWholeSecret(deleteType.value)
  {
    if !Truthy(deleteType) then Value(None)
    else if RemovesWholeSecret(deleteType.value) then
      if a.None? || a.value.model.None? then Throws else Value(Some(DestroyRecord))
    else if a.None? || a.value.modelForData.None? then Throws
    else Value(Some(V2DeleteOperation(a.value.modelForData.value.id, deleteType.value, VersionOverride(a.value))))
  }

  /** Without read access to the metadata, a versioned delete acts on the
      version of the fetched data, whatever version the model has selected. */
  lemma NoMetadataAccessTargetsFetchedVersion(deleteType: string, a: Args)
    requires deleteType != "" && !RemovesWholeSecret(deleteType)
    requires !a.canReadSecretMetadata && a.modelForData.Some?
    ensures DeleteCall(Some(deleteType), Some(a)) ==
      Value(Some(V2DeleteOperation(a.modelForData.value.id, deleteType, a.modelForData.value.version)))
  {
  }

  /** What the versioned delete returns: nothing, or a body that may be an
      adapter error carrying error strings. */
  datatype DeleteResponse =
    | NoBody
    | Body(isAdapterError: bool, errors: Option<seq<string>>)

  /** An observable effect on a collaborator. */
  datatype Effect =
    | Call(call: StoreCall)
    | TransitionTo(route: string)
    | Refresh
    | FlashDanger(message: string)
    | PageReload

  /** The reaction to a versioned delete's reply: refresh after an empty
      reply, flash the error message after an adapter error, reload the
      page after any other reply. */
  function ResponseEffect(resp: DeleteResponse): (e: Effect)
    ensures e == Refresh <==> resp.NoBody?
    ensures e.FlashDanger? <==> resp.Body? && resp.isAdapterError
    ensures e == PageReload <==> resp.Body? && !resp.isAdapterError
    ensures e.FlashDanger? ==> e.message == ErrorMessage(resp.errors) && e.message != ""
  {
    match resp
    case NoBody => Refresh
    case Body(isAdapterError, errors) =>
      if isAdapterError then FlashDanger(ErrorMessage(errors)) else PageReload
  }

  /** The component: its one tracked field, and the log of the effects it
      has had on its collaborators. */
  class Component {
    var showDeleteModal: bool
    var effects: seq<Effect>

    constructor ()
      ensures !showDeleteModal && effects == []
    {
      showDeleteModal := false;
      effects := [];
    }

    /** The continuation of a successful whole-record destroy. */
    method OnRecordDestroyed()
      modifies this
      ensures effects == old(effects) + [TransitionTo(ListRootRoute)]
      ensures showDeleteModal == old(showDeleteModal)
    {
      effects := effects + [TransitionTo(ListRootRoute)];
    }

    /** The continuation of a versioned delete: only an empty reply closes
      the modal. */
    method OnDeleteResponse(resp: DeleteResponse)
      modifies this
      ensures effects == old(effects) + [ResponseEffect(resp)]
      ensures showDeleteModal == (if resp.NoBody? then false else old(showDeleteModal))
    {
      if resp.NoBody? {
        showDeleteModal := false;
        effects := effects + [Refresh];
        return;
      }
      if resp.isAdapterError {
        var message := ErrorMessage(resp.errors);
        effects := effects + [FlashDanger(message)];
      } else {
        effects := effects + [PageReload];
      }
    }

    /** Handles a delete request of type `deleteType`. The store's reply is
      given: `destroyResolves` says whether the whole-record destroy
      resolved, `resp` is what the versioned delete returned. Returns the
      store call issued (`Throws` when a missing argument was
      dereferenced before any call). */
    method HandleDelete(deleteType: Option<string>, a: Option<Args>, destroyResolves: bool, resp: DeleteResponse)
      returns (issued: Eval<Option<StoreCall>>)
      modifies this
      ensures issued == DeleteCall(deleteType, a)
      ensures !issued.Value? || issued.value.None? ==>
        effects == old(effects) && showDeleteModal == old(showDeleteModal)
      ensures issued == Value(Some(DestroyRecord)) ==>
        && effects == old(effects) + [Call(DestroyRecord)] + (if destroyResolves then [TransitionTo(ListRootRoute)] else [])
        && showDeleteModal == old(showDeleteModal)
      ensures issued.Value? && issued.value.Some? && issued.value.value.V2DeleteOperation? ==>
        && effects == old(effects) + [Call(issued.value.value), ResponseEffect(resp)]
        && showDeleteModal == (if resp.NoBody? then false else old(showDeleteModal))
    {
      if !Truthy(deleteType) {
        return Value(None);
      }
      if deleteType.value == "destroy-all-versions" || deleteType.value == "v1" {
        if a.None? || a.value.model.None? {
          return Throws;
        }
        effects := effects + [Call(DestroyRecord)];
        issued := Value(Some(DestroyRecord));
        if destroyResolves {
          OnRecordDestroyed();
        }
      } else {
        if a.None? {
          return Throws;
        }
        var version: Option<int> := None;
        if !a.value.canReadSecretMetadata {
          version := if a.value.modelForData.Some? then a.value.modelForData.value.version else None;
        }
        if a.value.modelForData.None? {
          return Throws;
        }
        var call := V2DeleteOperation(a.value.modelForData.value.id, deleteType.value, version);
        effects := effects + [Call(call)];
        issued := Value(Some(call));
        OnDeleteResponse(resp);
      }
    }
  }

  /** Handling an empty reply twice is harmless: the modal stays closed and
      each handling asks for one refresh. */
  method RepeatedEmptyReplyIsSafe(c: Component)
    modifies c
    ensures !c.showDeleteModal
    ensures c.effects == old(c.effects) + [Refresh, Refresh]
  {
    c.OnDeleteResponse(NoBody);
    c.OnDeleteResponse(NoBody);
  }
}
