/**
 * The extension's four menu actions: the open dialog each one shows, the
 * `details` label it gives the task, and the task it creates and runs on
 * the chosen path. They are methods of `ImageJExtension` in the program;
 * here they take the extension as a parameter, since the task modules
 * already depend on the `Extension` module.
 */
module ExtensionActions {
  import opened Wrappers
  import NodePath
  import ImageJUtil
  import Extension
  import TaskBase
  import MapCreator
  import ObjectDetection
  import HolesDetection
  import Crop

  /** The title of `createMap`'s open dialog: a folder of tiles asks for its upper-left image. */
  function CreateMapTitle(isFolder: bool): (t: string)
    ensures |t| >= 12 && t[..12] == "Choose image"
    ensures isFolder <==> |t| > 12
  {
    "Choose image" + (if isFolder then " in the left-upper corner" else "")
  }

  /** `createMap`'s task label: a map or a layer, and the chosen file's basename. */
  function MapDetails(isMap: bool, file: string): string {
    (if isMap then "Map: " else "Layer: ") + NodePath.Basename(file)
  }

  /** The label names the chosen file and says whether a map or a layer is being made. */
  lemma MapDetailsShape(isMap: bool, file: string)
    ensures var d := MapDetails(isMap, file);
      && (isMap <==> |d| >= 5 && d[..5] == "Map: ")
      && d[|d| - |NodePath.Basename(file)|..] == NodePath.Basename(file)
  {
    var d := MapDetails(isMap, file);
    if !isMap {
      assert d[1] == 'a' && d[2] == 'y';
    }
  }

  /** The open dialog's properties: a directory for folder mode, a file for every other mode. */
  function DialogProperties(mode: int): seq<string> {
    if mode == ImageJUtil.Folder then ["openDirectory"] else ["openFile"]
  }

  /**
   * The detection tasks' label. The `"txt"` test compares with `path.extname`,
   * whose result always starts with a dot, so its branch is dead.
   */
  function DetectionDetails(mode: int, file: string): string {
    var name := NodePath.Basename(file);
    if mode == ImageJUtil.Folder then "Folder: " + name
    else if NodePath.ExtName(file) == "txt" then "File: " + name
    else "Image: " + name
  }

  /** Outside folder mode the label is always `Image: <basename>`, never `File: ...`. */
  lemma DetectionDetailsNeverFile(mode: int, file: string)
    requires mode != ImageJUtil.Folder
    ensures DetectionDetails(mode, file) == "Image: " + NodePath.Basename(file)
  {
    var e := NodePath.ExtName(file);
    assert e == [] || e[0] == '.';
  }

  /** The dialog asks for a directory exactly when the label calls the input a folder. */
  lemma DialogMatchesDetails(mode: int, file: string)
    ensures var d := DetectionDetails(mode, file);
      DialogProperties(mode) == ["openDirectory"] <==> |d| >= 8 && d[..8] == "Folder: "
  {
    var d := DetectionDetails(mode, file);
    if mode != ImageJUtil.Folder {
      DetectionDetailsNeverFile(mode, file);
      assert |d| < 8 || d[0] == 'I';
    }
  }

  function CropDetails(file: string): string {
    "Image: " + NodePath.Basename(file)
  }

  /** The crop task is labelled as a detection task on a single image is. */
  lemma CropDetailsAsDetection(file: string)
    ensures CropDetails(file) == DetectionDetails(ImageJUtil.SingleImage, file)
  {
    DetectionDetailsNeverFile(ImageJUtil.SingleImage, file);
  }

  /**
   * `createMap(isMap, isFolder)` once the dialog closed: `filepaths` is `None`
   * when it was dismissed; otherwise a task labelled after the first path is
   * created and run on it.
   */
  method CreateMap(ext: Extension.ImageJExtension, isMap: bool, isFolder: bool, filepaths: Option<seq<string>>)
    returns (task: Option<MapCreator.MapCreatorTask>)
    requires filepaths.Some? ==> |filepaths.value| >= 1
    ensures task.Some? <==> filepaths.Some?
    ensures task.Some? ==>
      && fresh(task.value) && task.value.Valid()
      && task.value.details == MapDetails(isMap, filepaths.value[0])
      && task.value.isMap == isMap && task.value.isFolder == isFolder && task.value.imageJExtension == ext
      && task.value.runPath == filepaths.value[0] && task.value.modal == TaskBase.Shown
      && task.value.base == [TaskBase.Run] && task.value.childProcess.None?
  {
    if filepaths.None? {
      task := None;
    } else {
      var file := filepaths.value[0];
      var t := new MapCreator.MapCreatorTask(MapDetails(isMap, file), isMap, isFolder, ext);
      t.Run(file);
      task := Some(t);
    }
  }

  /** `objectDetection(mode)` once the dialog closed. */
  method ObjectDetectionAction(ext: Extension.ImageJExtension, mode: int, filepaths: Option<seq<string>>)
    returns (task: Option<ObjectDetection.ObjectDetectionTask>)
    requires filepaths.Some? ==> |filepaths.value| >= 1
    ensures task.Some? <==> filepaths.Some?
    ensures task.Some? ==>
      && fresh(task.value) && task.value.Valid()
      && task.value.details == DetectionDetails(mode, filepaths.value[0])
      && task.value.mode == mode && task.value.imageJExtension == ext
      && task.value.runPath == filepaths.value[0] && task.value.modal == TaskBase.Shown
      && task.value.base == [TaskBase.Run] && task.value.childProcess.None?
  {
    if filepaths.None? {
      task := None;
    } else {
      var file := filepaths.value[0];
      var t := new ObjectDetection.ObjectDetectionTask(DetectionDetails(mode, file), mode, ext);
      t.Run(file);
      task := Some(t);
    }
  }

  /** `holesDetection(mode)` once the dialog closed; the base task is not started until the modal is submitted. */
  method HolesDetectionAction(ext: Extension.ImageJExtension, mode: int, filepaths: Option<seq<string>>)
    returns (task: Option<HolesDetection.HolesDetectionTask>)
    requires filepaths.Some? ==> |filepaths.value| >= 1
    ensures task.Some? <==> filepaths.Some?
    ensures task.Some? ==>
      && fresh(task.value) && task.value.Valid()
      && task.value.details == DetectionDetails(mode, filepaths.value[0])
      && task.value.mode == mode && task.value.imageJExtension == ext
      && task.value.runPath == filepaths.value[0] && task.value.modal == TaskBase.Shown
      && task.value.base == [] && task.value.childProcess.None?
  {
    if filepaths.None? {
      task := None;
    } else {
      var file := filepaths.value[0];
      var t := new HolesDetection.HolesDetectionTask(DetectionDetails(mode, file), mode, ext);
      t.Run(file);
      task := Some(t);
    }
  }

  /** `cropImage()` once the dialog closed; the task is run without a callback. */
  method CropImage(ext: Extension.ImageJExtension, filepaths: Option<seq<string>>)
    returns (task: Option<Crop.CropTask>)
    requires filepaths.Some? ==> |filepaths.value| >= 1
    ensures task.Some? <==> filepaths.Some?
    ensures task.Some? ==>
      && fresh(task.value) && task.value.Valid()
      && task.value.details == CropDetails(filepaths.value[0]) && task.value.imageJExtension == ext
      && task.value.runPath == filepaths.value[0] && !task.value.hasCallback
      && task.value.modal == TaskBase.Shown
      && task.value.base == [TaskBase.Run] && task.value.childProcess.None?
  {
    if filepaths.None? {
      task := None;
    } else {
      var file := filepaths.value[0];
      var t := new Crop.CropTask(CropDetails(file), ext);
      t.Run(file, false);
      task := Some(t);
    }
  }
}
