/**
 * `MapCreatorTask`: the options modal's parameters, the `#`-separated
 * argument string handed to the `MapCreator` macro, and the task's reaction
 * to the child process (progress, exit code, spawn error, cancellation).
 */
module MapCreator {
  import opened Wrappers
  import opened Text
  import NodePath
  import Progress
  import opened TaskBase
  import Extension

  const TaskName: string := "ImageJ MapCreator"
  const Macro: string := "MapCreator"

  /** The values of the modal's fields when Create is pressed. */
  datatype Form = Form(
    initialSlice: string, lastSlice: string, scale: string, mapName: string,
    pixel: string, maximum: string, slice: string,
    useAllSlices: bool, mergeAllSlices: bool, outputFolder: Option<string>)

  /** The `params` object the modal hands to the run callback. */
  datatype Params = Params(
    initialSlice: string, lastSlice: string, scale: string, mapName: string,
    pixel: string, maximum: string, slice: string,
    use: bool, merge: bool, path: string)

  const NoFolder: ErrorBox := ErrorBox("Can't create map", "You must choose an output folder.")

  /** The text fields as typed, the map name already sanitized. */
  function FormTexts(form: Form, sanitize: string -> string): seq<string> {
    [form.initialSlice, form.lastSlice, form.scale, sanitize(form.mapName), form.pixel, form.maximum, form.slice]
  }

  function ParamTexts(p: Params): seq<string> {
    [p.initialSlice, p.lastSlice, p.scale, p.mapName, p.pixel, p.maximum, p.slice]
  }

  /**
   * The parameters built on submit: none without an output folder; otherwise
   * every empty text field becomes `"[]"`, every other one is kept as typed.
   */
  function ParamsOf(form: Form, sanitize: string -> string): (p: Option<Params>)
    ensures p.Some? <==> FolderChosen(form.outputFolder)
    ensures p.Some? ==> p.value.path == form.outputFolder.value
    ensures p.Some? ==> p.value.use == form.useAllSlices && p.value.merge == form.mergeAllSlices
    ensures p.Some? ==> forall k :: 0 <= k < 7 ==>
      ParamTexts(p.value)[k] == (if FormTexts(form, sanitize)[k] == "" then "[]" else FormTexts(form, sanitize)[k])
  {
    if FolderChosen(form.outputFolder) then
      Some(Params(
        OrPlaceholder(form.initialSlice), OrPlaceholder(form.lastSlice), OrPlaceholder(form.scale),
        OrPlaceholder(sanitize(form.mapName)), OrPlaceholder(form.pixel), OrPlaceholder(form.maximum),
        OrPlaceholder(form.slice), form.useAllSlices, form.mergeAllSlices, form.outputFolder.value))
    else None
  }

  // ---------------------------------------------------------------------------
  // The macro's argument string

  /** The optional words before `choose=`: `use ` for all slices, `create ` for a map. */
  function Flags(use: bool, create: bool): string {
    (if use then "use " else "") + (if create then "create " else "")
  }

  /** The ImageJ option string, the sixth `#`-field. */
  function Options(p: Params, isMap: bool): string {
    "map=[" + p.mapName + "] pixel=" + p.pixel + " maximum=" + p.maximum + " slice=" + p.slice + " "
    + Flags(p.use, isMap) + "choose=" + p.path
  }

  /** The fields the macro reads, in order. */
  function Fields(p: Params, runPath: string, isFolder: bool, isMap: bool): seq<string> {
    [BoolToString(isFolder), p.initialSlice, p.lastSlice, p.scale, runPath, Options(p, isMap), BoolToString(p.merge)]
  }

  function Args(p: Params, runPath: string, isFolder: bool, isMap: bool): string {
    Join(Fields(p, runPath, isFolder, isMap), '#')
  }

  /** No text that goes into the argument string contains the field separator. */
  predicate HashFree(p: Params, runPath: string) {
    && '#' !in runPath && '#' !in p.initialSlice && '#' !in p.lastSlice && '#' !in p.scale
    && '#' !in p.mapName && '#' !in p.pixel && '#' !in p.maximum && '#' !in p.slice && '#' !in p.path
  }

  /** The two flags can be told apart in the option string: each combination renders differently. */
  lemma FlagsDistinct(use1: bool, create1: bool, use2: bool, create2: bool)
    requires Flags(use1, create1) == Flags(use2, create2)
    ensures use1 == use2 && create1 == create2
  {
    var f := Flags(use1, create1);
    assert |f| == (if use1 then 4 else 0) + (if create1 then 7 else 0);
    assert |f| == (if use2 then 4 else 0) + (if create2 then 7 else 0);
  }

  /** The option string holds a `#` only if one of the texts put into it does. */
  lemma OptionsHashFree(p: Params, isMap: bool)
    requires '#' !in p.mapName && '#' !in p.pixel && '#' !in p.maximum && '#' !in p.slice && '#' !in p.path
    ensures '#' !in Options(p, isMap)
  {
    var s := "map=[" + p.mapName + "] pixel=";
    assert '#' !in s;
    s := s + p.pixel + " maximum=";
    assert '#' !in s;
    s := s + p.maximum + " slice=";
    assert '#' !in s;
    s := s + p.slice + " ";
    assert '#' !in s;
    s := s + Flags(p.use, isMap) + "choose=";
    assert '#' !in s;
    assert Options(p, isMap) == s + p.path;
  }

  /** The macro splits the argument string on `#` and finds the seven fields in order. */
  lemma ArgsFields(p: Params, runPath: string, isFolder: bool, isMap: bool)
    requires HashFree(p, runPath)
    ensures Split(Args(p, runPath, isFolder, isMap), '#') == Fields(p, runPath, isFolder, isMap)
    ensures |Split(Args(p, runPath, isFolder, isMap), '#')| == 7
  {
    var fields := Fields(p, runPath, isFolder, isMap);
    OptionsHashFree(p, isMap);
    assert NoneContains(fields, '#');
    SplitJoin(fields, '#');
  }

  // ---------------------------------------------------------------------------
  // Results and messages

  /** Where the macro writes the map (or tiles layer) description. */
  function JsonPath(p: Params, isMap: bool): string {
    if isMap then NodePath.Join([p.path, p.mapName, p.mapName + ".json"])
    else NodePath.Join([p.path, p.mapName, p.mapName + "_tiles", p.mapName + "_tiles.json"])
  }

  /** The description lies in the output folder and is named after the map. */
  lemma JsonPathLocation(p: Params, isMap: bool)
    requires NodePath.Sep !in p.mapName
    ensures |JsonPath(p, isMap)| > |p.path|
    ensures JsonPath(p, isMap)[..|p.path| + 1] == p.path + [NodePath.Sep]
    ensures NodePath.Basename(JsonPath(p, isMap)) == p.mapName + (if isMap then ".json" else "_tiles.json")
  {
    var segments := if isMap then [p.path, p.mapName, p.mapName + ".json"]
                    else [p.path, p.mapName, p.mapName + "_tiles", p.mapName + "_tiles.json"];
    var last := segments[|segments| - 1];
    assert last == p.mapName + (if isMap then ".json" else "_tiles.json");
    assert last[|last| - 1] == 'n';
    assert NodePath.Sep !in last;
    NodePath.JoinFirst(segments);
    NodePath.BasenameOfJoin(segments);
  }

  /** The custom action offered once the task succeeds. */
  function SuccessCaption(isMap: bool): string {
    if isMap then "Load map to workspace" else "Add layer to a map in workspace"
  }

  function CloseNotification(details: string, o: Outcome): string {
    "Map creator task (" + details + ") "
    + match o
      case Succeeded => "completed"
      case Failed => "failed."
      case Cancelled => "cancelled."
  }

  /** The OS notification tells the three outcomes apart. */
  lemma CloseNotificationsDistinct(details: string, o1: Outcome, o2: Outcome)
    requires CloseNotification(details, o1) == CloseNotification(details, o2)
    ensures o1 == o2
  {
    var prefix := "Map creator task (" + details + ") ";
    var n1, n2 := CloseNotification(details, o1), CloseNotification(details, o2);
    assert n1[|prefix|..] == n2[|prefix|..];
    assert n1[|prefix|] == n2[|prefix|];
  }

  function ExecErrorNotification(err: string): string {
    "Map creator exec error: " + err
  }

  // ---------------------------------------------------------------------------
  // The map name proposed when the modal opens

  /** The regular expression `\.[^/.]+$` matches at `i`: a dot, then one or more characters, none a dot or slash. */
  predicate ExtensionAt(s: string, i: int) {
    0 <= i < |s| - 1 && s[i] == '.' && '.' !in s[i + 1..] && '/' !in s[i + 1..]
  }

  /** `s.replace(/\.[^/.]+$/, '')`: the string without its final extension, if it has one. */
  function StripExtension(s: string): (r: string)
    ensures r == s || (|r| < |s| && r == s[..|r|] && ExtensionAt(s, |r|))
    ensures r == s ==> forall i :: !ExtensionAt(s, i)
  {
    NodePath.LastIndexOfIsLast(s, '.');
    match NodePath.LastIndexOf(s, '.')
    case None => s
    case Some(k) =>
      if k < |s| - 1 && '/' !in s[k + 1..] then s[..k] else s
  }

  /** The value the map name field starts with: the image's basename without its extension, sanitized. */
  function InitialMapName(imagePath: string, sanitize: string -> string): string {
    sanitize(StripExtension(NodePath.Basename(imagePath)))
  }

  /**
   * For an image `dir/stem.ext` the field starts with the sanitized `stem`:
   * only the last extension is dropped, and dots inside `stem` are kept.
   */
  lemma InitialMapNameOfFile(dir: string, stem: string, ext: string, sanitize: string -> string)
    requires ext != [] && '.' !in ext && NodePath.Sep !in stem + ext
    ensures InitialMapName(dir + [NodePath.Sep] + (stem + "." + ext), sanitize) == sanitize(stem)
  {
    var name := stem + "." + ext;
    assert NodePath.Sep !in name by {
      assert forall i :: 0 <= i < |name| ==> name[i] == '.' || name[i] in stem + ext;
    }
    NodePath.BasenameAfterSep(dir, name);
    var r := StripExtension(name);
    assert name[|stem| + 1..] == ext;
    assert ExtensionAt(name, |stem|);
    assert r == stem;
  }

  // ---------------------------------------------------------------------------
  // The task

  class MapCreatorTask {
    const details: string
    const isMap: bool
    const isFolder: bool
    const imageJExtension: Extension.ImageJExtension
    /** The image or folder `run` was given, captured by the modal's callback. */
    var runPath: string
    var modal: ModalState
    var params: Option<Params>
    var childProcess: Option<Extension.Spawn>
    var jsonFile: Option<string>
    /** How the child process exited, once it has. */
    var outcome: Option<Outcome>
    /** `customAction.caption`. */
    var caption: Option<string>
    /** The calls made into the base `Task`, in order. */
    var base: seq<BaseCall>
    /** How many times `kill()` was sent to the child process. */
    var kills: nat
    /** The `notifyOS` messages, in order. */
    var notifications: seq<string>

    ghost predicate Valid()
      reads this
    {
      && (childProcess.Some? <==> params.Some?)
      && (params.Some? ==>
            modal == Destroyed
            && Extension.RunsMacro(childProcess.value, Macro, Args(params.value, runPath, isFolder, isMap)))
      && (jsonFile.Some? ==> params.Some? && jsonFile.value == JsonPath(params.value, isMap))
      && (outcome.Some? ==> childProcess.Some?)
      && (jsonFile.Some? ==> outcome == Some(Succeeded))
      && (caption.Some? ==> caption.value == SuccessCaption(isMap))
      && (kills > 0 ==> childProcess.Some?)
    }

    constructor (details: string, isMap: bool, isFolder: bool, imagejext: Extension.ImageJExtension)
      ensures Valid()
      ensures this.details == details && this.isMap == isMap && this.isFolder == isFolder
      ensures imageJExtension == imagejext
      ensures modal == NotShown && params.None? && childProcess.None? && jsonFile.None? && caption.None?
      ensures outcome.None?
      ensures base == [] && kills == 0 && notifications == []
    {
      this.details := details;
      this.isMap := isMap;
      this.isFolder := isFolder;
      imageJExtension := imagejext;
      runPath := "";
      modal := NotShown;
      params := None;
      childProcess := None;
      jsonFile := None;
      outcome := None;
      caption := None;
      base := [];
      kills := 0;
      notifications := [];
    }

    /** `run(runPath)`: starts the base task, then shows the options modal. */
    method Run(runPath: string)
      requires Valid() && modal == NotShown
      modifies this`runPath, this`modal, this`base
      ensures Valid()
      ensures base == old(base) + [TaskBase.Run] && modal == Shown && this.runPath == runPath
    {
      base := base + [TaskBase.Run];
      this.runPath := runPath;
      modal := Shown;
    }

    /**
     * Create: without an output folder an error box and nothing else;
     * otherwise the macro is spawned with the parameters and the modal closes.
     */
    method Submit(form: Form, sanitize: string -> string) returns (errorBox: Option<ErrorBox>)
      requires Valid() && modal == Shown
      modifies this`params, this`childProcess, this`modal
      ensures Valid()
      ensures errorBox.Some? <==> !FolderChosen(form.outputFolder)
      ensures errorBox.Some? ==> errorBox.value == NoFolder && unchanged(this)
      ensures errorBox.None? ==>
        && params == ParamsOf(form, sanitize)
        && childProcess == Some(imageJExtension.Run(Macro, Args(params.value, runPath, isFolder, isMap)))
        && modal == Destroyed
    {
      var p := ParamsOf(form, sanitize);
      if p.None? {
        errorBox := Some(NoFolder);
      } else {
        errorBox := None;
        params := p;
        childProcess := Some(imageJExtension.Run(Macro, Args(p.value, runPath, isFolder, isMap)));
        modal := Destroyed;
      }
    }

    /** `cancel()`: the base class decides; when it agrees, a running child process is killed. */
    method Cancel(baseAccepts: bool) returns (r: bool)
      requires Valid()
      modifies this`base, this`kills
      ensures Valid()
      ensures r == baseAccepts
      ensures base == old(base) + [TaskBase.Cancel]
      ensures kills == old(kills) + (if baseAccepts && childProcess.Some? then 1 else 0)
    {
      base := base + [TaskBase.Cancel];
      if baseAccepts {
        if childProcess.Some? {
          kills := kills + 1;
        }
        r := true;
      } else {
        r := false;
      }
    }

    /** The Cancel button: cancels the task and closes the modal; nothing is spawned. */
    method CancelButton(baseAccepts: bool)
      requires Valid() && modal == Shown
      modifies this`base, this`kills, this`modal
      ensures Valid()
      ensures base == old(base) + [TaskBase.Cancel] && kills == old(kills) && modal == Destroyed
      ensures childProcess.None?
    {
      var _ := Cancel(baseAccepts);
      modal := Destroyed;
    }

    /** A chunk of the child's stdout: a progress update when it holds a `<digits>/<digits>` ratio. */
    method OnData(chunk: string)
      requires Valid() && childProcess.Some?
      modifies this`base
      ensures Valid()
      ensures base == old(base) + ProgressCalls(Progress.FirstOverLast(chunk))
    {
      var update := Progress.FirstOverLast(chunk);
      base := base + ProgressCalls(update);
    }

    /** `success()`: sets the custom action's caption, then tells the base class. */
    method Success()
      requires Valid()
      modifies this`caption, this`base
      ensures Valid()
      ensures caption == Some(SuccessCaption(isMap))
      ensures base == old(base) + [TaskBase.Success]
    {
      caption := Some(SuccessCaption(isMap));
      base := base + [TaskBase.Success];
    }

    /** The child exited: success with the description's path, failure, or cancellation, then a notification. */
    method OnClose(code: Option<int>, baseAccepts: bool)
      requires Valid() && childProcess.Some? && outcome.None?
      modifies this`jsonFile, this`caption, this`base, this`kills, this`notifications, this`outcome
      ensures Valid()
      ensures outcome == Some(ExitOutcome(code))
      ensures notifications == old(notifications) + [CloseNotification(details, ExitOutcome(code))]
      ensures ExitOutcome(code) == Succeeded ==>
        && jsonFile == Some(JsonPath(params.value, isMap))
        && caption == Some(SuccessCaption(isMap))
        && base == old(base) + [TaskBase.Success] && kills == old(kills)
      ensures ExitOutcome(code) == Failed ==>
        && base == old(base) + [Fail(JvmProblem)]
        && jsonFile == old(jsonFile) && caption == old(caption) && kills == old(kills)
      ensures ExitOutcome(code) == Cancelled ==>
        && base == old(base) + [TaskBase.Cancel]
        && kills == old(kills) + (if baseAccepts then 1 else 0)
        && jsonFile == old(jsonFile) && caption == old(caption)
    {
      var o := ExitOutcome(code);
      outcome := Some(o);
      if o == Succeeded {
        jsonFile := Some(JsonPath(params.value, isMap));
        Success();
      } else if o == Failed {
        base := base + [Fail(JvmProblem)];
      } else {
        var _ := Cancel(baseAccepts);
      }
      notifications := notifications + [CloseNotification(details, o)];
    }

    /** The child could not be spawned or signalled. */
    method OnError(err: string)
      requires Valid() && childProcess.Some?
      modifies this`base, this`notifications
      ensures Valid()
      ensures base == old(base) + [Fail(err)]
      ensures notifications == old(notifications) + [ExecErrorNotification(err)]
    {
      base := base + [Fail(err)];
      notifications := notifications + [ExecErrorNotification(err)];
    }
  }
}
