/** The storage provisioner facade: who may see which entities, and the
    bulk calls that answer one result per argument. The state backend and
    the conversions in apiserver/common are parameters, as a record of
    functions. */
module StorageProvisioner {
  import opened Wrappers
  import opened ApiErrors

  /** The kinds of entity tag the facade tells apart, each with its id. */
  datatype Tag = EnvironTag(uuid: string) | MachineTag(id: string) | VolumeTag(id: string) | OtherTag(kind: string, id: string)

  /** The string form of a machine tag: "machine-" then the id with each
      '/' (a container separator) written as '-'. */
  function MachineTagString(id: string): (s: string)
    ensures |s| == |"machine-"| + |id| && "machine-" <= s
    ensures forall i :: 0 <= i < |id| ==> s[|"machine-"| + i] == (if id[i] == '/' then '-' else id[i])
  {
    "machine-" + seq(|id|, i requires 0 <= i < |id| => if id[i] == '/' then '-' else id[i])
  }

  /** What the facade asks of the authorizer. */
  datatype Authorizer = Authorizer(machineAgent: bool, environManager: bool, authTag: Tag)

  /** A volume as the state reports it, and as it travels over the API. */
  datatype StateVolume = StateVolume(tag: string, size: nat)
  datatype ParamsVolume = ParamsVolume(volumeTag: string, volumeId: string, serial: string, size: nat)
  datatype ParamsVolumeParams = ParamsVolumeParams(volumeTag: string, size: nat, provider: string, machineTag: string)
  datatype VolumeInfo = VolumeInfo(volumeId: string, serial: string, size: nat)

  /** A volume attachment, known by the id of its machine. */
  datatype Attachment = Attachment(machine: string)

  /** What common.VolumeToState yields: the volume's id and its info. */
  datatype VolumeUpdate = VolumeUpdate(volumeId: string, info: VolumeInfo)

  /** The state backend and the conversions the facade calls:
      names.ParseVolumeTag (the volume id, or None when the string is not a
      volume tag), state.ParentId, State.Volume, State.VolumeAttachments,
      State.SetVolumeInfo and common's VolumeFromState, VolumeParams (with
      the pool manager applied) and VolumeToState. */
  datatype Backend = Backend(
    parseVolumeTag: string -> Option<string>,
    parentId: string -> string,
    volume: string -> Result<StateVolume, Error>,
    volumeAttachments: string -> Result<seq<Attachment>, Error>,
    setVolumeInfo: (string, VolumeInfo) -> Option<Error>,
    volumeFromState: StateVolume -> Result<ParamsVolume, Error>,
    volumeParams: StateVolume -> Result<ParamsVolumeParams, Error>,
    volumeToState: ParamsVolume -> Result<VolumeUpdate, Error>)

  /** The facade, with what it read from the authorizer when it was made. */
  datatype StorageProvisionerAPI = StorageProvisionerAPI(isEnvironManager: bool, authEntityTag: Tag, st: Backend)

  /** Only a machine agent may have the facade. */
  function NewStorageProvisionerAPI(st: Backend, authorizer: Authorizer): (r: Result<StorageProvisionerAPI, Error>)
    ensures r.Failure? <==> !authorizer.machineAgent
    ensures r.Failure? ==> r.error == ErrPerm
    ensures r.Success? ==> r.value.isEnvironManager == authorizer.environManager && r.value.authEntityTag == authorizer.authTag
    ensures r.Success? ==> r.value.st == st
  {
    if !authorizer.machineAgent then Failure(ErrPerm)
    else Success(StorageProvisionerAPI(authorizer.environManager, authorizer.authTag, st))
  }

  /** The machine auth function: the environment for environment managers,
      the caller's own machine, and containers whose parent is the caller's
      machine; nothing else. */
  function MachineAuth(api: StorageProvisionerAPI, tag: Tag): (b: bool)
    ensures tag.EnvironTag? ==> (b <==> api.isEnvironManager)
    ensures tag.MachineTag? ==>
      (b <==> tag == api.authEntityTag
              || (api.st.parentId(tag.id) != "" && MachineTag(api.st.parentId(tag.id)) == api.authEntityTag))
    ensures !tag.EnvironTag? && !tag.MachineTag? ==> !b
  {
    match tag
    case EnvironTag(_) => api.isEnvironManager
    case MachineTag(id) =>
      if tag == api.authEntityTag then true
      else
        var parentId := api.st.parentId(id);
        if parentId == "" then false
        else MachineTag(parentId) == api.authEntityTag
    case _ => false
  }

  /** The volume auth function: every volume tag, and nothing else. */
  function VolumeAuth(tag: Tag): (b: bool)
    ensures b <==> tag.VolumeTag?
  {
    match tag
    case VolumeTag(_) => true
    case _ => false
  }

  /** A machine agent reaches its own machine and its containers, and a top
      level machine that is not its own is out of reach. */
  lemma MachineAuthScopes(api: StorageProvisionerAPI, id: string, other: string)
    requires api.authEntityTag == MachineTag(id)
    ensures MachineAuth(api, MachineTag(id))
    ensures api.st.parentId(other) == id && id != "" ==> MachineAuth(api, MachineTag(other))
    ensures other != id && api.st.parentId(other) == "" ==> !MachineAuth(api, MachineTag(other))
    ensures !MachineAuth(api, VolumeTag(other)) && !MachineAuth(api, OtherTag("unit", other))
  {
  }

  /** ParseVolumeTag only yields volume tags, so the volume check never
      refuses a tag that parsed: for such a tag, Volumes' answer is the
      volume read alone, with not-found hidden. */
  lemma VolumeAuthAcceptsParsedTags(api: StorageProvisionerAPI, arg: string)
    requires api.st.parseVolumeTag(arg).Some?
    ensures VolumeAuth(VolumeTag(api.st.parseVolumeTag(arg).value))
    ensures var v := api.st.volume(api.st.parseVolumeTag(arg).value);
      OneVolume(api, arg) == if v.Failure? then Failure(HideNotFound(v.error)) else api.st.volumeFromState(v.value)
  {
  }

  /** The error a missing volume becomes: the caller cannot tell it from a
      volume it may not see. */
  function HideNotFound(e: Error): (r: Error)
    ensures IsNotFound(e) ==> r == ErrPerm
    ensures !IsNotFound(e) ==> r == e
  {
    if IsNotFound(e) then ErrPerm else e
  }

  /** Volumes, for one argument. */
  function OneVolume(api: StorageProvisionerAPI, arg: string): (r: Result<ParamsVolume, Error>)
    ensures api.st.parseVolumeTag(arg).None? ==> r == Failure(ErrPerm)
    ensures api.st.parseVolumeTag(arg).Some? ==>
      var v := api.st.volume(api.st.parseVolumeTag(arg).value);
      && (v.Failure? ==> r == Failure(HideNotFound(v.error)))
      && (v.Success? ==> r == api.st.volumeFromState(v.value))
  {
    var tag := api.st.parseVolumeTag(arg);
    if tag.None? || !VolumeAuth(VolumeTag(tag.value)) then Failure(ErrPerm)
    else
      var v := api.st.volume(tag.value);
      if v.Failure? then Failure(HideNotFound(v.error))
      else api.st.volumeFromState(v.value)
  }

  datatype VolumeResult = VolumeResult(result: ParamsVolume, error: Option<ParamsError>)

  const ZeroVolume := ParamsVolume("", "", "", 0)

  /** A result slot: the value, or the zero value and the wrapped error. */
  function ToVolumeResult(r: Result<ParamsVolume, Error>): (res: VolumeResult)
    ensures res.error.Some? <==> r.Failure?
    ensures r.Failure? ==> res == VolumeResult(ZeroVolume, Some(ServerError(r.error)))
    ensures r.Success? ==> res.result == r.value
  {
    if r.Failure? then VolumeResult(ZeroVolume, Some(ServerError(r.error)))
    else VolumeResult(r.value, None)
  }

  /** Volumes: one slot per argument, slot i made from argument i alone. */
  method Volumes(api: StorageProvisionerAPI, args: seq<string>) returns (results: seq<VolumeResult>)
    ensures |results| == |args|
    ensures forall i :: 0 <= i < |args| ==> results[i] == ToVolumeResult(OneVolume(api, args[i]))
  {
    var a := new VolumeResult[|args|];
    for i := 0 to |args|
      invariant forall j :: 0 <= j < i ==> a[j] == ToVolumeResult(OneVolume(api, args[j]))
    {
      a[i] := ToVolumeResult(OneVolume(api, args[i]));
    }
    results := a[..];
  }

  /** A missing volume and a tag that does not parse give the same slot:
      permission denied, with an empty volume. Any other lookup error is
      reported as it is. */
  lemma MissingVolumeLooksLikeDenied(api: StorageProvisionerAPI, missing: string, unparsed: string)
    requires api.st.parseVolumeTag(unparsed).None?
    requires api.st.parseVolumeTag(missing).Some?
    requires api.st.volume(api.st.parseVolumeTag(missing).value).Failure?
    ensures var e := api.st.volume(api.st.parseVolumeTag(missing).value).error;
      && (IsNotFound(e) ==> ToVolumeResult(OneVolume(api, missing)) == ToVolumeResult(OneVolume(api, unparsed)))
      && (!IsNotFound(e) ==> ToVolumeResult(OneVolume(api, missing)).error == Some(ServerError(e)))
      && ToVolumeResult(OneVolume(api, unparsed)).error.value.code == CodeUnauthorized
  {
  }

  /** VolumeParams, for one argument: the same checks as Volumes, then the
      attachments and the volume's parameters; the machine tag is filled in
      only when the volume has exactly one attachment. */
  function OneVolumeParams(api: StorageProvisionerAPI, arg: string): (r: Result<ParamsVolumeParams, Error>)
    ensures api.st.parseVolumeTag(arg).None? ==> r == Failure(ErrPerm)
    ensures api.st.parseVolumeTag(arg).Some? && api.st.volume(api.st.parseVolumeTag(arg).value).Failure? ==>
      r == Failure(HideNotFound(api.st.volume(api.st.parseVolumeTag(arg).value).error))
    ensures r.Success? ==>
      && api.st.parseVolumeTag(arg).Some?
      && api.st.volume(api.st.parseVolumeTag(arg).value).Success?
      && api.st.volumeAttachments(api.st.parseVolumeTag(arg).value).Success?
      && api.st.volumeParams(api.st.volume(api.st.parseVolumeTag(arg).value).value).Success?
      && var id := api.st.parseVolumeTag(arg).value;
         var atts := api.st.volumeAttachments(id).value;
         var vp := api.st.volumeParams(api.st.volume(id).value).value;
         r.value == if |atts| == 1 then vp.(machineTag := MachineTagString(atts[0].machine)) else vp
  {
    var tag := api.st.parseVolumeTag(arg);
    if tag.None? || !VolumeAuth(VolumeTag(tag.value)) then Failure(ErrPerm)
    else
      var v := api.st.volume(tag.value);
      if v.Failure? then Failure(HideNotFound(v.error))
      else
        var atts := api.st.volumeAttachments(tag.value);
        if atts.Failure? then Failure(atts.error)
        else
          var vp := api.st.volumeParams(v.value);
          if vp.Failure? then Failure(vp.error)
          else if |atts.value| == 1 then Success(vp.value.(machineTag := MachineTagString(atts.value[0].machine)))
          else Success(vp.value)
  }

  /** Errors from the attachments and from the parameters pass through
      unchanged, not hidden as permission errors. */
  lemma VolumeParamsPassesLaterErrors(api: StorageProvisionerAPI, arg: string)
    requires api.st.parseVolumeTag(arg).Some?
    requires api.st.volume(api.st.parseVolumeTag(arg).value).Success?
    ensures var id := api.st.parseVolumeTag(arg).value;
      var atts := api.st.volumeAttachments(id);
      var vp := api.st.volumeParams(api.st.volume(id).value);
      && (atts.Failure? ==> OneVolumeParams(api, arg) == Failure(atts.error))
      && (atts.Success? && vp.Failure? ==> OneVolumeParams(api, arg) == Failure(vp.error))
      && (atts.Success? && vp.Success? ==> OneVolumeParams(api, arg).Success?)
  {
  }

  /** With no attachment or several, the parameters are those of the volume
      as common's conversion made them; with one, only the machine tag
      differs, and it names the attached machine. */
  lemma MachineTagOnlyForSingleAttachment(api: StorageProvisionerAPI, arg: string)
    requires OneVolumeParams(api, arg).Success?
    ensures var id := api.st.parseVolumeTag(arg).value;
      var atts := api.st.volumeAttachments(id).value;
      var vp := api.st.volumeParams(api.st.volume(id).value).value;
      var r := OneVolumeParams(api, arg).value;
      && (|atts| != 1 ==> r == vp)
      && (|atts| == 1 ==> r.machineTag == MachineTagString(atts[0].machine)
                          && r.(machineTag := vp.machineTag) == vp)
  {
  }

  datatype VolumeParamsResult = VolumeParamsResult(result: ParamsVolumeParams, error: Option<ParamsError>)

  const ZeroVolumeParams := ParamsVolumeParams("", 0, "", "")

  function ToVolumeParamsResult(r: Result<ParamsVolumeParams, Error>): (res: VolumeParamsResult)
    ensures res.error.Some? <==> r.Failure?
    ensures r.Failure? ==> res == VolumeParamsResult(ZeroVolumeParams, Some(ServerError(r.error)))
    ensures r.Success? ==> res.result == r.value
  {
    if r.Failure? then VolumeParamsResult(ZeroVolumeParams, Some(ServerError(r.error)))
    else VolumeParamsResult(r.value, None)
  }

  /** VolumeParams: one slot per argument, slot i made from argument i alone. */
  method VolumeParams(api: StorageProvisionerAPI, args: seq<string>) returns (results: seq<VolumeParamsResult>)
    ensures |results| == |args|
    ensures forall i :: 0 <= i < |args| ==> results[i] == ToVolumeParamsResult(OneVolumeParams(api, args[i]))
  {
    var a := new VolumeParamsResult[|args|];
    for i := 0 to |args|
      invariant forall j :: 0 <= j < i ==> a[j] == ToVolumeParamsResult(OneVolumeParams(api, args[j]))
    {
      a[i] := ToVolumeParamsResult(OneVolumeParams(api, args[i]));
    }
    results := a[..];
  }

  /** SetVolumeInfo, for one argument: a conversion error passes through; a
      volume the state does not know becomes permission denied. */
  function OneSetVolumeInfo(api: StorageProvisionerAPI, arg: ParamsVolume): (r: Option<Error>)
    ensures api.st.volumeToState(arg).Failure? ==> r == Some(api.st.volumeToState(arg).error)
    ensures api.st.volumeToState(arg).Success? ==>
      var u := api.st.volumeToState(arg).value;
      var e := api.st.setVolumeInfo(u.volumeId, u.info);
      && (e.None? ==> r.None?)
      && (e.Some? ==> r == Some(HideNotFound(e.value)))
  {
    var u := api.st.volumeToState(arg);
    if u.Failure? then Some(u.error)
    else if !VolumeAuth(VolumeTag(u.value.volumeId)) then Some(ErrPerm)
    else
      var e := api.st.setVolumeInfo(u.value.volumeId, u.value.info);
      if e.Some? then Some(HideNotFound(e.value)) else None
  }

  /** The updates SetVolumeInfo hands to the state, in argument order: one
      for every argument that converts, whatever happened to the others. */
  function Writes(api: StorageProvisionerAPI, args: seq<ParamsVolume>): (w: seq<VolumeUpdate>)
    ensures |w| <= |args|
    decreases |args|
  {
    if args == [] then []
    else
      var last := api.st.volumeToState(args[|args| - 1]);
      Writes(api, args[..|args| - 1]) + (if last.Success? then [last.value] else [])
  }

  /** When every argument converts, every argument is written: write i is
      argument i converted. */
  lemma {:induction false} WritesAll(api: StorageProvisionerAPI, args: seq<ParamsVolume>)
    requires forall i :: 0 <= i < |args| ==> api.st.volumeToState(args[i]).Success?
    ensures |Writes(api, args)| == |args|
    ensures forall i :: 0 <= i < |args| ==> Writes(api, args)[i] == api.st.volumeToState(args[i]).value
    decreases |args|
  {
    if args != [] {
      var init := args[..|args| - 1];
      assert forall i :: 0 <= i < |init| ==> init[i] == args[i];
      WritesAll(api, init);
      assert args == init + [args[|args| - 1]];
    }
  }

  /** Writes over one more argument. */
  lemma WritesStep(api: StorageProvisionerAPI, args: seq<ParamsVolume>, i: int)
    requires 0 <= i < |args|
    ensures Writes(api, args[..i + 1]) == Writes(api, args[..i])
      + (if api.st.volumeToState(args[i]).Success? then [api.st.volumeToState(args[i]).value] else [])
  {
    assert args[..i + 1][..i] == args[..i];
  }

  /** Every update written is the conversion of one of the arguments. */
  lemma {:induction false} WritesFromArgs(api: StorageProvisionerAPI, args: seq<ParamsVolume>)
    ensures forall u :: u in Writes(api, args) ==> exists i :: 0 <= i < |args| && api.st.volumeToState(args[i]) == Success(u)
    decreases |args|
  {
    if args != [] {
      var init := args[..|args| - 1];
      WritesFromArgs(api, init);
      forall u | u in Writes(api, args)
        ensures exists i :: 0 <= i < |args| && api.st.volumeToState(args[i]) == Success(u)
      {
        if u in Writes(api, init) {
          var i :| 0 <= i < |init| && api.st.volumeToState(init[i]) == Success(u);
          assert args[i] == init[i];
        } else {
          assert api.st.volumeToState(args[|args| - 1]) == Success(u);
        }
      }
    }
  }

  datatype ErrorResult = ErrorResult(error: Option<ParamsError>)

  /** A SetVolumeInfo slot: the wrapped error, or none. */
  function ToErrorResult(err: Option<Error>): (res: ErrorResult)
    ensures res.error.Some? <==> err.Some?
    ensures err.Some? ==> res.error.value == ServerError(err.value) && RestoreError(res.error.value) == err.value
  {
    ErrorResult(if err.Some? then Some(ServerError(err.value)) else None)
  }

  /** SetVolumeInfo: one slot per argument, slot i made from argument i
      alone, and every argument that converts is written. */
  method SetVolumeInfo(api: StorageProvisionerAPI, args: seq<ParamsVolume>) returns (results: seq<ErrorResult>, written: seq<VolumeUpdate>)
    ensures |results| == |args|
    ensures forall i :: 0 <= i < |args| ==> results[i] == ToErrorResult(OneSetVolumeInfo(api, args[i]))
    ensures written == Writes(api, args)
  {
    var a := new ErrorResult[|args|];
    written := [];
    for i := 0 to |args|
      invariant forall j :: 0 <= j < i ==> a[j] == ToErrorResult(OneSetVolumeInfo(api, args[j]))
      invariant written == Writes(api, args[..i])
    {
      var u := api.st.volumeToState(args[i]);
      WritesStep(api, args, i);
      if u.Success? {
        written := written + [u.value];
      }
      a[i] := ToErrorResult(OneSetVolumeInfo(api, args[i]));
    }
    assert args[..|args|] == args;
    results := a[..];
  }

  /** A volume the state does not know gives permission denied in its slot;
      a successful write gives no error. */
  lemma SetVolumeInfoErrors(api: StorageProvisionerAPI, arg: ParamsVolume)
    requires api.st.volumeToState(arg).Success?
    ensures var u := api.st.volumeToState(arg).value;
      var e := api.st.setVolumeInfo(u.volumeId, u.info);
      && (e.Some? && IsNotFound(e.value) ==> OneSetVolumeInfo(api, arg) == Some(ErrPerm))
      && (e.Some? && !IsNotFound(e.value) ==> OneSetVolumeInfo(api, arg) == e)
      && (e.None? ==> OneSetVolumeInfo(api, arg).None?)
  {
  }
}
