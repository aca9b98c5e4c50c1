/**
 * `ObjectDetectionTask`: runs the `ObjectDetector` macro and, when it
 * succeeds, writes a points layer description for the detected centroids
 * into `<output>/points/`.
 */
module ObjectDetection {
  import opened Wrappers
  import opened Text
  import NodePath
  import Progress
  import opened TaskBase
  import Extension
  import ImageJUtil

  const TaskName: string := "ImageJ Object Detector"
  const Macro: string := "ObjectDetector"
  const LayerType: string := "points"
  const Caption: string := "Add layer to a map in workspace"

  /** The values of the modal's fields when Ok is pressed. */
  datatype Form = Form(
    rmin: string, rmax: string, byStep: string, thrMethod: string,
    min: string, max: string, fraction: string, toll: string, outputFolder: Option<string>)

  /** The `params` object the modal hands to the run callback. */
  datatype Params = Params(
    rmin: string, rmax: string, byStep: string, thrMethod: string,
    min: string, max: string, fraction: string, toll: string, path: string)

  const NoFolder: ErrorBox :=
    ErrorBox("Can't detect objects", "You must choose an output folder where results will be saved.")

  /** The numeric fields as typed (the threshold method is a selection, kept as is). */
  function FormNumbers(form: Form): seq<string> {
    [form.rmin, form.rmax, form.byStep, form.min, form.max, form.fraction, form.toll]
  }

  function ParamNumbers(p: Params): seq<string> {
    [p.rmin, p.rmax, p.byStep, p.min, p.max, p.fraction, p.toll]
  }

  /**
   * The parameters built on submit: none without an output folder; otherwise
   * every empty numeric field becomes `"[]"` and everything else is kept.
   */
  function ParamsOf(form: Form): (p: Option<Params>)
    ensures p.Some? <==> FolderChosen(form.outputFolder)
    ensures p.Some? ==> p.value.path == form.outputFolder.value && p.value.thrMethod == form.thrMethod
    ensures p.Some? ==> forall k :: 0 <= k < 7 ==>
      ParamNumbers(p.value)[k] == (if FormNumbers(form)[k] == "" then "[]" else FormNumbers(form)[k])
  {
    if FolderChosen(form.outputFolder) then
      Some(Params(
        OrPlaceholder(form.rmin), OrPlaceholder(form.rmax), OrPlaceholder(form.byStep), form.thrMethod,
        OrPlaceholder(form.min), OrPlaceholder(form.max), OrPlaceholder(form.fraction),
        OrPlaceholder(form.toll), form.outputFolder.value))
    else None
  }

  /** The fields the macro reads, in order. */
  function Fields(mode: int, runPath: string, p: Params): seq<string> {
    [IntToString(mode), runPath, p.rmin, p.rmax, p.byStep, p.thrMethod, p.min, p.max, p.fraction, p.toll, p.path]
  }

  function Args(mode: int, runPath: string, p: Params): string {
    Join(Fields(mode, runPath, p), '#')
  }

  predicate HashFree(runPath: string, p: Params) {
    && '#' !in runPath && '#' !in p.rmin && '#' !in p.rmax && '#' !in p.byStep && '#' !in p.thrMethod
    && '#' !in p.min && '#' !in p.max && '#' !in p.fraction && '#' !in p.toll && '#' !in p.path
  }

  /** The macro splits the argument string on `#` and finds the eleven fields in order, the mode first. */
  lemma ArgsFields(mode: int, runPath: string, p: Params)
    requires HashFree(runPath, p)
    ensures Split(Args(mode, runPath, p), '#') == Fields(mode, runPath, p)
    ensures |Split(Args(mode, runPath, p), '#')| == 11
    ensures ParseInt(Split(Args(mode, runPath, p), '#')[0]) == Some(mode)
  {
    var fields := Fields(mode, runPath, p);
    if mode < 0 {
      assert IntToString(mode) == "-" + NatToString(-mode);
    }
    assert '#' !in IntToString(mode);
    assert NoneContains(fields, '#');
    SplitJoin(fields, '#');
    ParseIntOfIntToString(mode);
  }

  /** Where the points layer description is written: `<output>/points/<name>.json`. */
  function JsonPath(path: string, config: ImageJUtil.LayerConfig): string {
    FolderFile(path, "points", config.Name() + ".json")
  }

  /** The layer built after a successful run is a points layer named after its centroids. */
  lemma DetectionLayer(runPath: string, path: string, mode: int, listing: Option<seq<ImageJUtil.Entry>>,
                       probe: string -> ImageJUtil.Probe, author: string)
    ensures var c := ImageJUtil.JsonConfiguration(runPath, path, mode, LayerType, listing, probe, author);
            c.Some? ==> c.value.PointsLayer? && c.value.author == author
                        && |c.value.Name()| >= 9 && c.value.Name()[..9] == "centroid_"
  {
    match ImageJUtil.LayerDimensions(runPath, mode, listing, probe)
    case Resolved(sizes, template) =>
      var c := ImageJUtil.Descriptor(LayerType, ImageJUtil.LayerFileName(runPath, template), sizes, author);
      assert c.PointsLayer?;
    case _ =>
  }

  /** The description is written to `<output>/points/` under the layer's name. */
  lemma JsonPathLocation(path: string, config: ImageJUtil.LayerConfig)
    requires NodePath.Sep !in config.Name()
    ensures |JsonPath(path, config)| > |path + "/points"|
    ensures JsonPath(path, config)[..|path + "/points"| + 1] == path + "/points/"
    ensures NodePath.Basename(JsonPath(path, config)) == config.Name() + ".json"
  {
    var name := config.Name() + ".json";
    assert name[|name| - 1] == 'n';
    FolderFileLocation(path, "points", name);
  }

  function CloseNotification(details: string, o: Outcome): string {
    "Object detection task (" + details + ") "
    + match o
      case Succeeded => "completed"
      case Failed => "failed."
      case Cancelled => "cancelled"
  }

  /** The OS notification tells the three outcomes apart. */
  lemma CloseNotificationsDistinct(details: string, o1: Outcome, o2: Outcome)
    requires CloseNotification(details, o1) == CloseNotification(details, o2)
    ensures o1 == o2
  {
    var prefix := "Object detection task (" + details + ") ";
    var n1, n2 := CloseNotification(details, o1), CloseNotification(details, o2);
    assert n1[|prefix|..] == n2[|prefix|..];
    assert n1[|prefix|] == n2[|prefix|];
  }

  function SaveErrorNotification(err: string): string {
    "Can't save JSON configuration file! Error: " + err
  }

  function ExecErrorNotification(err: string): string {
    "Object detection exec error: " + err
  }

  class ObjectDetectionTask {
    const details: string
    /** The layers mode of the input: single image, folder of tiles or image list. */
    const mode: int
    const imageJExtension: Extension.ImageJExtension
    var runPath: string
    var modal: ModalState
    var params: Option<Params>
    var childProcess: Option<Extension.Spawn>
    var jsonFile: Option<string>
    /** How the child process exited, once it has. */
    var outcome: Option<Outcome>
    var caption: Option<string>
    var base: seq<BaseCall>
    var kills: nat
    var notifications: seq<string>

    ghost predicate Valid()
      reads this
    {
      && (childProcess.Some? <==> params.Some?)
      && (params.Some? ==>
            modal == Destroyed
            && Extension.RunsMacro(childProcess.value, Macro, Args(mode, runPath, params.value)))
      && (jsonFile.Some? ==>
            && params.Some?
            && |jsonFile.value| > |params.value.path + "/points"|
            && jsonFile.value[..|params.value.path + "/points"| + 1] == params.value.path + "/points/"
            && exists c :: jsonFile.value == JsonPath(params.value.path, c))
      && (outcome.Some? ==> childProcess.Some?)
      && (jsonFile.Some? ==> outcome == Some(Succeeded))
      && (caption.Some? ==> caption.value == Caption)
      && (kills > 0 ==> childProcess.Some?)
    }

    constructor (details: string, mode: int, imagejext: Extension.ImageJExtension)
      ensures Valid()
      ensures this.details == details && this.mode == mode && imageJExtension == imagejext
      ensures modal == NotShown && params.None? && childProcess.None? && jsonFile.None? && caption.None?
      ensures outcome.None?
      ensures base == [] && kills == 0 && notifications == []
    {
      this.details := details;
      this.mode := mode;
      imageJExtension := imagejext;
      runPath := "";
      modal := NotShown;
      params := None;
      childProcess := None;
      jsonFile := None;
      outcome := None;
      caption := None;
      base := [];
      kills := 0;
      notifications := [];
    }

    /** `run(runPath)`: starts the base task, then shows the options modal. */
    method Run(runPath: string)
      requires Valid() && modal == NotShown
      modifies this`runPath, this`modal, this`base
      ensures Valid()
      ensures base == old(base) + [TaskBase.Run] && modal == Shown && this.runPath == runPath
    {
      base := base + [TaskBase.Run];
      this.runPath := runPath;
      modal := Shown;
    }

    /** Ok: an error box without an output folder; otherwise the macro is spawned and the modal closes. */
    method Submit(form: Form) returns (errorBox: Option<ErrorBox>)
      requires Valid() && modal == Shown
      modifies this`params, this`childProcess, this`modal
      ensures Valid()
      ensures errorBox.Some? <==> !FolderChosen(form.outputFolder)
      ensures errorBox.Some? ==> errorBox.value == NoFolder && unchanged(this)
      ensures errorBox.None? ==>
        && params == ParamsOf(form)
        && childProcess == Some(imageJExtension.Run(Macro, Args(mode, runPath, params.value)))
        && modal == Destroyed
    {
      var p := ParamsOf(form);
      if p.None? {
        errorBox := Some(NoFolder);
      } else {
        errorBox := None;
        params := p;
        childProcess := Some(imageJExtension.Run(Macro, Args(mode, runPath, p.value)));
        modal := Destroyed;
      }
    }

    /** `cancel()`: the base class decides; when it agrees, a running child process is killed. */
    method Cancel(baseAccepts: bool) returns (r: bool)
      requires Valid()
      modifies this`base, this`kills
      ensures Valid()
      ensures r == baseAccepts
      ensures base == old(base) + [TaskBase.Cancel]
      ensures kills == old(kills) + (if baseAccepts && childProcess.Some? then 1 else 0)
    {
      base := base + [TaskBase.Cancel];
      if baseAccepts {
        if childProcess.Some? {
          kills := kills + 1;
        }
        r := true;
      } else {
        r := false;
      }
    }

    /** The Cancel button: cancels the task and closes the modal; nothing is spawned. */
    method CancelButton(baseAccepts: bool)
      requires Valid() && modal == Shown
      modifies this`base, this`kills, this`modal
      ensures Valid()
      ensures base == old(base) + [TaskBase.Cancel] && kills == old(kills) && modal == Destroyed
      ensures childProcess.None?
    {
      var _ := Cancel(baseAccepts);
      modal := Destroyed;
    }

    /** A chunk of the child's stdout: a progress update when it holds a `<digits>/<digits>` ratio. */
    method OnData(chunk: string)
      requires Valid() && childProcess.Some?
      modifies this`base
      ensures Valid()
      ensures base == old(base) + ProgressCalls(Progress.FirstOverSecond(chunk))
    {
      var update := Progress.FirstOverSecond(chunk);
      base := base + ProgressCalls(update);
    }

    /** `success()`: sets the custom action's caption, then tells the base class. */
    method Success()
      requires Valid()
      modifies this`caption, this`base
      ensures Valid()
      ensures caption == Some(Caption)
      ensures base == old(base) + [TaskBase.Success]
    {
      caption := Some(Caption);
      base := base + [TaskBase.Success];
    }

    /**
     * The child exited. On success the task succeeds at once and the layer
     * description is built and written later, by `OnConfiguration`; the other
     * two branches notify at once.
     */
    method OnClose(code: Option<int>, baseAccepts: bool)
      requires Valid() && childProcess.Some? && outcome.None?
      modifies this`caption, this`base, this`kills, this`notifications, this`outcome
      ensures Valid()
      ensures outcome == Some(ExitOutcome(code))
      ensures ExitOutcome(code) == Succeeded ==>
        && caption == Some(Caption) && base == old(base) + [TaskBase.Success] && kills == old(kills)
        && notifications == old(notifications)
      ensures ExitOutcome(code) == Failed ==>
        && base == old(base) + [Fail(JvmProblem)] && caption == old(caption) && kills == old(kills)
        && notifications == old(notifications) + [CloseNotification(details, Failed)]
      ensures ExitOutcome(code) == Cancelled ==>
        && base == old(base) + [TaskBase.Cancel] && caption == old(caption)
        && kills == old(kills) + (if baseAccepts then 1 else 0)
        && notifications == old(notifications) + [CloseNotification(details, Cancelled)]
    {
      var o := ExitOutcome(code);
      outcome := Some(o);
      if o == Succeeded {
        Success();
      } else if o == Failed {
        base := base + [Fail(JvmProblem)];
        notifications := notifications + [CloseNotification(details, Failed)];
      } else {
        var _ := Cancel(baseAccepts);
        notifications := notifications + [CloseNotification(details, Cancelled)];
      }
    }

    /**
     * After a successful exit: the layer description is built from the input
     * (`listing`, `probe` and `author` are what the file system, the image
     * reader and the OS report) and written, `writeError` being the write's
     * outcome. The notification waits for the write; there is none when no
     * description could be built.
     */
    method OnConfiguration(listing: Option<seq<ImageJUtil.Entry>>, probe: string -> ImageJUtil.Probe,
                           author: string, writeError: Option<string>)
      requires Valid() && childProcess.Some? && outcome == Some(Succeeded)
      modifies this`jsonFile, this`notifications
      ensures Valid()
      ensures var config := ImageJUtil.JsonConfiguration(runPath, params.value.path, mode, LayerType, listing, probe, author);
        && (config.None? ==> jsonFile == old(jsonFile) && notifications == old(notifications))
        && (config.Some? && writeError.Some? ==>
              jsonFile == old(jsonFile)
              && notifications == old(notifications) + [SaveErrorNotification(writeError.value)])
        && (config.Some? && writeError.None? ==>
              jsonFile == Some(JsonPath(params.value.path, config.value))
              && notifications == old(notifications) + [CloseNotification(details, Succeeded)])
    {
      var config := ImageJUtil.CreateJsonConfiguration(runPath, params.value.path, mode, LayerType,
                                                       listing, probe, author);
      if config.Some? {
        OnWritten(config.value, writeError);
      }
    }

    /** The write of the description `config` finished, with `writeError` when it failed. */
    method OnWritten(config: ImageJUtil.LayerConfig, writeError: Option<string>)
      requires Valid() && childProcess.Some? && outcome == Some(Succeeded)
      modifies this`jsonFile, this`notifications
      ensures Valid()
      ensures writeError.Some? ==>
        jsonFile == old(jsonFile) && notifications == old(notifications) + [SaveErrorNotification(writeError.value)]
      ensures writeError.None? ==>
        jsonFile == Some(JsonPath(params.value.path, config))
        && notifications == old(notifications) + [CloseNotification(details, Succeeded)]
    {
      if writeError.Some? {
        notifications := notifications + [SaveErrorNotification(writeError.value)];
      } else {
        FolderFilePrefix(params.value.path, "points", config.Name() + ".json");
        jsonFile := Some(JsonPath(params.value.path, config));
        notifications := notifications + [CloseNotification(details, Succeeded)];
      }
    }

    /** The child could not be spawned or signalled. */
    method OnError(err: string)
      requires Valid() && childProcess.Some?
      modifies this`base, this`notifications
      ensures Valid()
      ensures base == old(base) + [Fail(err)]
      ensures notifications == old(notifications) + [ExecErrorNotification(err)]
    {
      base := base + [Fail(err)];
      notifications := notifications + [ExecErrorNotification(err)];
    }
  }
}
