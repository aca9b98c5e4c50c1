/**
 * `HolesDetectionTask`: runs the `HolesDetector` macro and, when it
 * succeeds, writes a pixels layer description for the holes into
 * `<output>/holes_pixels/`. Unlike the other tasks it starts the base task
 * only after the macro is spawned, reports the child's stderr to the base
 * task, and shows no OS notification.
 */
module HolesDetection {
  import opened Wrappers
  import opened Text
  import NodePath
  import Progress
  import opened TaskBase
  import Extension
  import ImageJUtil

  const TaskName: string := "ImageJ Holes Detection"
  const Macro: string := "HolesDetector"
  const LayerType: string := "pixels"
  const Caption: string := "Add layer to a map in workspace"

  datatype Form = Form(radius: string, threshold: string, outputFolder: Option<string>)

  datatype Params = Params(radius: string, threshold: string, path: string)

  const NoFolder: ErrorBox :=
    ErrorBox("Can't detect holes", "You must choose an output folder where results will be saved.")

  /** The parameters built on submit: none without an output folder; empty fields become `"[]"`. */
  function ParamsOf(form: Form): (p: Option<Params>)
    ensures p.Some? <==> FolderChosen(form.outputFolder)
    ensures p.Some? ==> p.value.path == form.outputFolder.value
    ensures p.Some? ==> p.value.radius == (if form.radius == "" then "[]" else form.radius)
    ensures p.Some? ==> p.value.threshold == (if form.threshold == "" then "[]" else form.threshold)
  {
    if FolderChosen(form.outputFolder) then
      Some(Params(OrPlaceholder(form.radius), OrPlaceholder(form.threshold), form.outputFolder.value))
    else None
  }

  /** The fields the macro reads, in order. */
  function Fields(mode: int, runPath: string, p: Params): seq<string> {
    [IntToString(mode), runPath, p.radius, p.threshold, p.path]
  }

  function Args(mode: int, runPath: string, p: Params): string {
    Join(Fields(mode, runPath, p), '#')
  }

  predicate HashFree(runPath: string, p: Params) {
    '#' !in runPath && '#' !in p.radius && '#' !in p.threshold && '#' !in p.path
  }

  /** The macro splits the argument string on `#` and finds the five fields in order, the mode first. */
  lemma ArgsFields(mode: int, runPath: string, p: Params)
    requires HashFree(runPath, p)
    ensures Split(Args(mode, runPath, p), '#') == Fields(mode, runPath, p)
    ensures |Split(Args(mode, runPath, p), '#')| == 5
    ensures ParseInt(Split(Args(mode, runPath, p), '#')[0]) == Some(mode)
  {
    var fields := Fields(mode, runPath, p);
    if mode < 0 {
      assert IntToString(mode) == "-" + NatToString(-mode);
    }
    assert '#' !in IntToString(mode);
    assert NoneContains(fields, '#');
    SplitJoin(fields, '#');
    ParseIntOfIntToString(mode);
  }

  /** Where the pixels layer description is written: `<output>/holes_pixels/<name>.json`. */
  function JsonPath(path: string, config: ImageJUtil.LayerConfig): string {
    FolderFile(path, "holes_pixels", config.Name() + ".json")
  }

  /** The layer built after a successful run is a pixels layer of holes, named after them. */
  lemma DetectionLayer(runPath: string, path: string, mode: int, listing: Option<seq<ImageJUtil.Entry>>,
                       probe: string -> ImageJUtil.Probe, author: string)
    ensures var c := ImageJUtil.JsonConfiguration(runPath, path, mode, LayerType, listing, probe, author);
            c.Some? ==> c.value.PixelsLayer? && c.value.role == "holes" && c.value.author == author
                        && |c.value.Name()| >= 6 && c.value.Name()[..6] == "holes_"
  {
    match ImageJUtil.LayerDimensions(runPath, mode, listing, probe)
    case Resolved(sizes, template) =>
      var c := ImageJUtil.Descriptor(LayerType, ImageJUtil.LayerFileName(runPath, template), sizes, author);
      assert c.PixelsLayer?;
    case _ =>
  }

  /** The description is written to `<output>/holes_pixels/` under the layer's name. */
  lemma JsonPathLocation(path: string, config: ImageJUtil.LayerConfig)
    requires NodePath.Sep !in config.Name()
    ensures |JsonPath(path, config)| > |path + "/holes_pixels"|
    ensures JsonPath(path, config)[..|path + "/holes_pixels"| + 1] == path + "/holes_pixels/"
    ensures NodePath.Basename(JsonPath(path, config)) == config.Name() + ".json"
  {
    var name := config.Name() + ".json";
    assert name[|name| - 1] == 'n';
    FolderFileLocation(path, "holes_pixels", name);
  }

  class HolesDetectionTask {
    const details: string
    /** The layers mode of the input: single image, folder of tiles or image list. */
    const mode: int
    const imageJExtension: Extension.ImageJExtension
    var runPath: string
    var modal: ModalState
    var params: Option<Params>
    var childProcess: Option<Extension.Spawn>
    var jsonFile: Option<string>
    /** How the child process exited, once it has. */
    var outcome: Option<Outcome>
    var caption: Option<string>
    var base: seq<BaseCall>
    var kills: nat

    ghost predicate Valid()
      reads this
    {
      && (childProcess.Some? <==> params.Some?)
      && (TaskBase.Run in base <==> childProcess.Some?)
      && (params.Some? ==>
            modal == Destroyed
            && Extension.RunsMacro(childProcess.value, Macro, Args(mode, runPath, params.value)))
      && (jsonFile.Some? ==>
            && params.Some?
            && |jsonFile.value| > |params.value.path + "/holes_pixels"|
            && jsonFile.value[..|params.value.path + "/holes_pixels"| + 1] == params.value.path + "/holes_pixels/"
            && exists c :: jsonFile.value == JsonPath(params.value.path, c))
      && (outcome.Some? ==> childProcess.Some?)
      && (jsonFile.Some? ==> outcome == Some(Succeeded))
      && (caption.Some? ==> caption.value == Caption)
      && (kills > 0 ==> childProcess.Some?)
    }

    constructor (details: string, mode: int, imagejext: Extension.ImageJExtension)
      ensures Valid()
      ensures this.details == details && this.mode == mode && imageJExtension == imagejext
      ensures modal == NotShown && params.None? && childProcess.None? && jsonFile.None? && caption.None?
      ensures outcome.None?
      ensures base == [] && kills == 0
    {
      this.details := details;
      this.mode := mode;
      imageJExtension := imagejext;
      runPath := "";
      modal := NotShown;
      params := None;
      childProcess := None;
      jsonFile := None;
      outcome := None;
      caption := None;
      base := [];
      kills := 0;
    }

    /** `run(runPath)`: only shows the options modal; the base task is not started yet. */
    method Run(runPath: string)
      requires Valid() && modal == NotShown
      modifies this`runPath, this`modal
      ensures Valid()
      ensures modal == Shown && this.runPath == runPath
    {
      this.runPath := runPath;
      modal := Shown;
    }

    /**
     * Ok: an error box without an output folder; otherwise the macro is
     * spawned, the modal closes and only then the base task starts.
     */
    method Submit(form: Form) returns (errorBox: Option<ErrorBox>)
      requires Valid() && modal == Shown
      modifies this`params, this`childProcess, this`modal, this`base
      ensures Valid()
      ensures errorBox.Some? <==> !FolderChosen(form.outputFolder)
      ensures errorBox.Some? ==> errorBox.value == NoFolder && unchanged(this)
      ensures errorBox.None? ==>
        && params == ParamsOf(form)
        && childProcess == Some(imageJExtension.Run(Macro, Args(mode, runPath, params.value)))
        && modal == Destroyed
        && base == old(base) + [TaskBase.Run]
    {
      var p := ParamsOf(form);
      if p.None? {
        errorBox := Some(NoFolder);
      } else {
        errorBox := None;
        params := p;
        childProcess := Some(imageJExtension.Run(Macro, Args(mode, runPath, p.value)));
        modal := Destroyed;
        base := base + [TaskBase.Run];
      }
    }

    /** `cancel()`: the base class decides; when it agrees, a running child process is killed. */
    method Cancel(baseAccepts: bool) returns (r: bool)
      requires Valid()
      modifies this`base, this`kills
      ensures Valid()
      ensures r == baseAccepts
      ensures base == old(base) + [TaskBase.Cancel]
      ensures kills == old(kills) + (if baseAccepts && childProcess.Some? then 1 else 0)
    {
      base := base + [TaskBase.Cancel];
      if baseAccepts {
        if childProcess.Some? {
          kills := kills + 1;
        }
        r := true;
      } else {
        r := false;
      }
    }

    /** The Cancel button: cancels the task and closes the modal; the base task never starts. */
    method CancelButton(baseAccepts: bool)
      requires Valid() && modal == Shown
      modifies this`base, this`kills, this`modal
      ensures Valid()
      ensures base == old(base) + [TaskBase.Cancel] && kills == old(kills) && modal == Destroyed
      ensures TaskBase.Run !in base
    {
      var _ := Cancel(baseAccepts);
      modal := Destroyed;
    }

    /** A chunk of the child's stdout: a progress update when it holds a `<digits>/<digits>` ratio. */
    method OnData(chunk: string)
      requires Valid() && childProcess.Some?
      modifies this`base
      ensures Valid()
      ensures base == old(base) + ProgressCalls(Progress.FirstOverSecond(chunk))
    {
      var update := Progress.FirstOverSecond(chunk);
      base := base + ProgressCalls(update);
    }

    /** A chunk of the child's stderr is reported to the base task as an error. */
    method OnStderr(chunk: string)
      requires Valid() && childProcess.Some?
      modifies this`base
      ensures Valid()
      ensures base == old(base) + [Error("stderr: " + chunk)]
    {
      base := base + [Error("stderr: " + chunk)];
    }

    /** `success()`: sets the custom action's caption, then tells the base class. */
    method Success()
      requires Valid()
      modifies this`caption, this`base
      ensures Valid()
      ensures caption == Some(Caption)
      ensures base == old(base) + [TaskBase.Success]
    {
      caption := Some(Caption);
      base := base + [TaskBase.Success];
    }

    /** The child exited: success (the description is written later, by `OnConfiguration`), failure or cancellation. */
    method OnClose(code: Option<int>, baseAccepts: bool)
      requires Valid() && childProcess.Some? && outcome.None?
      modifies this`caption, this`base, this`kills, this`outcome
      ensures Valid()
      ensures outcome == Some(ExitOutcome(code))
      ensures ExitOutcome(code) == Succeeded ==>
        caption == Some(Caption) && base == old(base) + [TaskBase.Success] && kills == old(kills)
      ensures ExitOutcome(code) == Failed ==>
        base == old(base) + [Fail(JvmProblem)] && caption == old(caption) && kills == old(kills)
      ensures ExitOutcome(code) == Cancelled ==>
        && base == old(base) + [TaskBase.Cancel] && caption == old(caption)
        && kills == old(kills) + (if baseAccepts then 1 else 0)
    {
      var o := ExitOutcome(code);
      outcome := Some(o);
      if o == Succeeded {
        Success();
      } else if o == Failed {
        base := base + [Fail(JvmProblem)];
      } else {
        var _ := Cancel(baseAccepts);
      }
    }

    /**
     * After a successful exit: the layer description is built from the input
     * (`listing`, `probe` and `author` are what the file system, the image
     * reader and the OS report) and written, `writeError` being the write's
     * outcome. Only a completed write records the file.
     */
    method OnConfiguration(listing: Option<seq<ImageJUtil.Entry>>, probe: string -> ImageJUtil.Probe,
                           author: string, writeError: Option<string>)
      requires Valid() && childProcess.Some? && outcome == Some(Succeeded)
      modifies this`jsonFile
      ensures Valid()
      ensures var config := ImageJUtil.JsonConfiguration(runPath, params.value.path, mode, LayerType, listing, probe, author);
        jsonFile == (if config.Some? && writeError.None? then Some(JsonPath(params.value.path, config.value))
                     else old(jsonFile))
    {
      var config := ImageJUtil.CreateJsonConfiguration(runPath, params.value.path, mode, LayerType,
                                                       listing, probe, author);
      if config.Some? {
        OnWritten(config.value, writeError);
      }
    }

    /** The write of the description `config` finished, with `writeError` when it failed. */
    method OnWritten(config: ImageJUtil.LayerConfig, writeError: Option<string>)
      requires Valid() && childProcess.Some? && outcome == Some(Succeeded)
      modifies this`jsonFile
      ensures Valid()
      ensures jsonFile == (if writeError.None? then Some(JsonPath(params.value.path, config)) else old(jsonFile))
    {
      if writeError.None? {
        FolderFilePrefix(params.value.path, "holes_pixels", config.Name() + ".json");
        jsonFile := Some(JsonPath(params.value.path, config));
      }
    }

    /** The child could not be spawned or signalled. */
    method OnError(err: string)
      requires Valid() && childProcess.Some?
      modifies this`base
      ensures Valid()
      ensures base == old(base) + [Fail(err)]
    {
      base := base + [Fail(err)];
    }
  }
}
