/**
 * `CropTask`: runs the `croppingBigSTiched` macro on a large stitched image.
 * It has no layer description to write; the caller of `run` may pass a
 * callback, which hears about a cancelled run only.
 */
module Crop {
  import opened Wrappers
  import opened Text
  import NodePath
  import Progress
  import opened TaskBase
  import Extension

  const TaskName: string := "ImageJ Image Cropping"
  const Macro: string := "croppingBigSTiched"

  datatype Form = Form(dimTiles: string, height: string, width: string, x: string, y: string,
                       outputFolder: Option<string>)

  datatype Params = Params(dimTiles: string, height: string, width: string, x: string, y: string, path: string)

  const NoFolder: ErrorBox :=
    ErrorBox("Can't crop image", "You must choose an output folder where cropped images will be saved.")

  /**
   * The parameters built on submit: none without an output folder; the tile
   * size and the crop's height and width default to `"[]"`, its origin to `0`.
   */
  function ParamsOf(form: Form): (p: Option<Params>)
    ensures p.Some? <==> FolderChosen(form.outputFolder)
    ensures p.Some? ==> p.value.path == form.outputFolder.value
    ensures p.Some? ==>
      && p.value.dimTiles == OrPlaceholder(form.dimTiles)
      && p.value.height == OrPlaceholder(form.height)
      && p.value.width == OrPlaceholder(form.width)
      && p.value.x == (if form.x == "" then "0" else form.x)
      && p.value.y == (if form.y == "" then "0" else form.y)
  {
    if FolderChosen(form.outputFolder) then
      Some(Params(OrPlaceholder(form.dimTiles), OrPlaceholder(form.height), OrPlaceholder(form.width),
                  OrZero(form.x), OrZero(form.y), form.outputFolder.value))
    else None
  }

  /** The name the cropped tiles are given: the image's basename without its extension. */
  function ImageName(runPath: string): string {
    NodePath.BasenameWithout(runPath, NodePath.ExtName(runPath))
  }

  /** The fields the macro reads, in order. */
  function Fields(runPath: string, p: Params): seq<string> {
    [runPath, ImageName(runPath), p.dimTiles, p.height, p.width, p.x, p.y, p.path]
  }

  function Args(runPath: string, p: Params): string {
    Join(Fields(runPath, p), '#')
  }

  predicate HashFree(runPath: string, p: Params) {
    && '#' !in runPath && '#' !in p.dimTiles && '#' !in p.height && '#' !in p.width
    && '#' !in p.x && '#' !in p.y && '#' !in p.path
  }

  /** The image name is the basename's stem: no `#` comes in that the path lacks. */
  lemma ImageNameParts(runPath: string)
    ensures ImageName(runPath) + NodePath.ExtName(runPath) == NodePath.Basename(runPath)
    ensures '#' !in runPath ==> '#' !in ImageName(runPath)
  {
    NodePath.StemThenExtension(runPath);
    NodePath.BasenameInPath(runPath);
    var b := NodePath.Basename(runPath);
    var stem := ImageName(runPath);
    forall i | 0 <= i < |stem| ensures stem[i] in b {
      assert stem[i] == b[i];
    }
  }

  /**
   * The macro splits the argument string on `#` and finds the eight fields in
   * order; the second one, followed by the image's extension, is its basename.
   */
  lemma ArgsFields(runPath: string, p: Params)
    requires HashFree(runPath, p)
    ensures Split(Args(runPath, p), '#') == Fields(runPath, p)
    ensures |Split(Args(runPath, p), '#')| == 8
    ensures Split(Args(runPath, p), '#')[1] + NodePath.ExtName(runPath) == NodePath.Basename(runPath)
  {
    ImageNameParts(runPath);
    var fields := Fields(runPath, p);
    assert NoneContains(fields, '#');
    SplitJoin(fields, '#');
  }

  function CancelNotification(details: string): string {
    "Image cropping task (" + details + ") cancelled"
  }

  class CropTask {
    const details: string
    const imageJExtension: Extension.ImageJExtension
    var runPath: string
    /** `run` was given a function to call back. */
    var hasCallback: bool
    /** The messages the callback received, in order. */
    var callbackMessages: seq<string>
    var modal: ModalState
    var params: Option<Params>
    var childProcess: Option<Extension.Spawn>
    /** How the child process exited, once it has. */
    var outcome: Option<Outcome>
    var base: seq<BaseCall>
    var kills: nat

    /**
     * The child process exists exactly when parameters were submitted, and
     * then the modal is gone. That the child runs the macro on those
     * parameters is `Submit`'s postcondition; no other method may change
     * `runPath`, `params` or `childProcess`.
     */
    ghost predicate Valid()
      reads this
    {
      && (childProcess.Some? <==> params.Some?)
      && (params.Some? ==> modal == Destroyed)
      && (callbackMessages != [] ==> hasCallback && childProcess.Some?)
      && (kills > 0 ==> childProcess.Some?)
      && (outcome.Some? ==> childProcess.Some?)
    }

    constructor (details: string, imagejext: Extension.ImageJExtension)
      ensures Valid()
      ensures this.details == details && imageJExtension == imagejext
      ensures modal == NotShown && params.None? && childProcess.None? && outcome.None?
      ensures base == [] && kills == 0 && callbackMessages == []
    {
      this.details := details;
      imageJExtension := imagejext;
      runPath := "";
      hasCallback := false;
      callbackMessages := [];
      modal := NotShown;
      params := None;
      childProcess := None;
      outcome := None;
      base := [];
      kills := 0;
    }

    /** `run(runPath, cl)`: starts the base task, then shows the options modal. */
    method Run(runPath: string, hasCallback: bool)
      requires Valid() && modal == NotShown
      modifies this`runPath, this`hasCallback, this`modal, this`base
      ensures Valid()
      ensures base == old(base) + [TaskBase.Run] && modal == Shown
      ensures this.runPath == runPath && this.hasCallback == hasCallback
    {
      base := base + [TaskBase.Run];
      this.runPath := runPath;
      this.hasCallback := hasCallback;
      modal := Shown;
    }

    /** The callback `next(modal, params)`: the macro is spawned on the parameters and the modal closes. */
    method Launch(runPath: string, p: Params)
      requires Valid() && modal == Shown
      modifies this`params, this`childProcess, this`modal
      ensures Valid()
      ensures params == Some(p) && modal == Destroyed
      ensures childProcess == Some(imageJExtension.Run(Macro, Args(runPath, p)))
    {
      params := Some(p);
      childProcess := Some(imageJExtension.Run(Macro, Args(runPath, p)));
      modal := Destroyed;
    }

    /** Ok: an error box without an output folder; otherwise the parameters go to `next`. */
    method Submit(form: Form) returns (errorBox: Option<ErrorBox>)
      requires Valid() && modal == Shown
      modifies this`params, this`childProcess, this`modal
      ensures Valid()
      ensures errorBox.Some? <==> !FolderChosen(form.outputFolder)
      ensures errorBox.Some? ==> errorBox.value == NoFolder && unchanged(this)
      ensures errorBox.None? ==>
        && params == ParamsOf(form)
        && childProcess == Some(imageJExtension.Run(Macro, Args(runPath, params.value)))
        && modal == Destroyed
    {
      var p := ParamsOf(form);
      if p.None? {
        errorBox := Some(NoFolder);
      } else {
        errorBox := None;
        Launch(runPath, p.value);
      }
    }

    /** `cancel()`: the base class decides; when it agrees, a running child process is killed. */
    method Cancel(baseAccepts: bool) returns (r: bool)
      requires Valid()
      modifies this`base, this`kills
      ensures Valid()
      ensures r == baseAccepts
      ensures base == old(base) + [TaskBase.Cancel]
      ensures kills == old(kills) + (if baseAccepts && childProcess.Some? then 1 else 0)
    {
      base := base + [TaskBase.Cancel];
      if baseAccepts {
        if childProcess.Some? {
          kills := kills + 1;
        }
        r := true;
      } else {
        r := false;
      }
    }

    /** The Cancel button: cancels the task and closes the modal; nothing is spawned. */
    method CancelButton(baseAccepts: bool)
      requires Valid() && modal == Shown
      modifies this`base, this`kills, this`modal
      ensures Valid()
      ensures base == old(base) + [TaskBase.Cancel] && kills == old(kills) && modal == Destroyed
      ensures childProcess.None?
    {
      var _ := Cancel(baseAccepts);
      modal := Destroyed;
    }

    /** A chunk of the child's stdout: a progress update when it holds a `<digits>/<digits>` ratio. */
    method OnData(chunk: string)
      requires Valid() && childProcess.Some?
      modifies this`base
      ensures Valid()
      ensures base == old(base) + ProgressCalls(Progress.FirstOverSecond(chunk))
    {
      var update := Progress.FirstOverSecond(chunk);
      base := base + ProgressCalls(update);
    }

    /**
     * The child exited: success, failure or cancellation. Only a cancellation
     * reaches the callback, after the task was cancelled.
     */
    method OnClose(code: Option<int>, baseAccepts: bool)
      requires Valid() && childProcess.Some? && outcome.None?
      modifies this`base, this`kills, this`callbackMessages, this`outcome
      ensures Valid()
      ensures outcome == Some(ExitOutcome(code))
      ensures ExitOutcome(code) == Succeeded ==>
        base == old(base) + [TaskBase.Success] && kills == old(kills) && callbackMessages == old(callbackMessages)
      ensures ExitOutcome(code) == Failed ==>
        base == old(base) + [Fail(JvmProblem)] && kills == old(kills) && callbackMessages == old(callbackMessages)
      ensures ExitOutcome(code) == Cancelled ==>
        && base == old(base) + [TaskBase.Cancel]
        && kills == old(kills) + (if baseAccepts then 1 else 0)
        && callbackMessages == old(callbackMessages) + (if hasCallback then [CancelNotification(details)] else [])
    {
      var o := ExitOutcome(code);
      outcome := Some(o);
      if o == Succeeded {
        base := base + [TaskBase.Success];
      } else if o == Failed {
        base := base + [Fail(JvmProblem)];
      } else {
        var _ := Cancel(baseAccepts);
        if hasCallback {
          callbackMessages := callbackMessages + [CancelNotification(details)];
        }
      }
    }

    /** The child could not be spawned or signalled. */
    method OnError(err: string)
      requires Valid() && childProcess.Some?
      modifies this`base
      ensures Valid()
      ensures base == old(base) + [Fail(err)]
    {
      base := base + [Fail(err)];
    }
  }
}
