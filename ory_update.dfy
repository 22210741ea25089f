/**
 * `ory update identity-config`: the only kind the update command acts on. The upload-type
 * pick chooses between a file dialog and a typed location, which becomes the `--file` value.
 */
module OryUpdate {
  import opened Wrappers
  import opened Helper

  datatype UpdatePick =
    | IdentityConfigUpdate | OAuth2ClientUpdate | OAuth2ConfigUpdate | OplUpdate | PermissionConfigUpdate | ProjectUpdate

  /** The local `fileType`: like the shared one, except that a cancelled pick means json. */
  function UpdateFileType(pick: Option<UploadPick>): (r: string)
    ensures r != "yaml/yml"
    ensures r == "json" <==> pick.None? || pick == Some(JsonUpload)
    ensures r == "yaml" <==> pick == Some(YamlUpload)
    ensures r == "url" <==> pick == Some(UrlUpload)
    ensures r == "base64" <==> pick == Some(Base64Upload)
  {
    var name := if pick.Some? then UploadLabel(pick.value) else "";
    if name == "yaml/yml" then "yaml"
    else if name == "url" then "url"
    else if name == "base64" then "base64"
    else "json"
  }

  /** The caller's test for the file-dialog branch. */
  predicate UsesDialog(fileTypeInput: string)
  {
    fileTypeInput == "yaml/yml" || fileTypeInput == "json"
  }

  /** Only json (or no pick) opens the dialog: the yaml pick is asked for a typed location. */
  lemma DialogOnlyForJson(pick: Option<UploadPick>)
    ensures UsesDialog(UpdateFileType(pick)) <==> pick.None? || pick == Some(JsonUpload)
  {
  }

  /** `base64OrURLPrefix`: the example location shown in the typed-location prompt. */
  function LocationPrefix(fileTypeInput: string): (r: string)
    ensures r == "https://example.org/config.yaml" <==> fileTypeInput == "url"
    ensures fileTypeInput != "url" ==> r == "base64://<json>"
  {
    if fileTypeInput == "url" then "https://example.org/config.yaml" else "base64://<json>"
  }

  /** The hint of the typed-location prompt. */
  function LocationPlaceholder(fileTypeInput: string): string
  {
    "Enter " + LocationPrefix(fileTypeInput)
  }

  /** The yaml pick is prompted with the base64 hint. */
  lemma YamlPromptedAsBase64()
    ensures LocationPrefix(UpdateFileType(Some(YamlUpload))) == "base64://<json>"
    ensures LocationPlaceholder(UpdateFileType(Some(YamlUpload))) == "Enter " + "base64://<json>"
  {
  }

  function UpdateArgv(projectId: string, file: string): (r: seq<string>)
    ensures |r| == 5 && r[..3] == ["update", "identity-config", projectId] && r[3] == "--file" && r[4] == file
  {
    ["update", "identity-config", projectId, "--file", file]
  }

  datatype UpdateOutcome =
    | NotRun
    | Cancelled
    | Updated(argv: seq<string>, effects: seq<Effect>, resolved: Option<string>)

  /**
   * `runOryUpdate` with `oryUpdateIdentityConfig`: the project prompt (a cancel rejects the
   * command), the upload type, then either the dialog's file or the typed location.
   */
  method RunOryUpdate(
    pick: Option<UpdatePick>,
    projectAnswer: Option<string>,
    uploadPick: Option<UploadPick>,
    fileLocation: Option<string>,
    configURL: Option<string>,
    events: seq<ProcessEvent>)
    returns (outcome: UpdateOutcome)
    ensures pick != Some(IdentityConfigUpdate) ==> outcome == NotRun
    ensures outcome.Updated? <==> (pick == Some(IdentityConfigUpdate) && projectAnswer.Some? &&
      (if UsesDialog(UpdateFileType(uploadPick)) then fileLocation.Some? else configURL.Some?))
    ensures outcome.Updated? ==>
      && outcome.argv == UpdateArgv(projectAnswer.value,
           if UsesDialog(UpdateFileType(uploadPick)) then fileLocation.value else configURL.value)
      && outcome.effects == AllEffects("update", Some(""), events)
      && outcome.resolved == Resolution(events)
  {
    if pick != Some(IdentityConfigUpdate) {
      return NotRun;
    }
    var projectId := Helper.CommandInput(SingleInput, projectAnswer);
    if projectId.Err? {
      return Cancelled;
    }
    var fileTypeInput := UpdateFileType(uploadPick);
    var file: string;
    if fileTypeInput == "yaml/yml" || fileTypeInput == "json" {
      if fileLocation.None? {
        return Cancelled;
      }
      file := fileLocation.value;
    } else {
      if configURL.None? {
        return Cancelled;
      }
      file := configURL.value;
    }
    var argv := ["update", "identity-config", projectId.value[0], "--file", file];
    var resolved, effects := SpawnCommonErrAndClose("update", Some(""), events);
    outcome := Updated(argv, effects, resolved);
  }
}
