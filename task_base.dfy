/**
 * Vocabulary shared by the four task classes: the calls they make into the
 * electrongui `Task` they extend, the exit-code convention of their close
 * handlers, the state of their options modal, and the `"[]"` placeholder
 * for empty form fields.
 */
module TaskBase {
  import opened Wrappers
  import Progress
  import NodePath

  /**
   * A call a task makes into the electrongui `Task` base class. The base
   * class is not part of this model, so the tasks record these calls rather
   * than model their effect.
   */
  datatype BaseCall =
    | Run
    | Success
    | Fail(reason: string)
    | Cancel
    | UpdateProgress(percentage: Progress.Percentage)
    | Error(message: string)

  datatype Outcome = Succeeded | Failed | Cancelled

  /**
   * The close handlers' three branches: `code == 0`, `code == 1` and anything
   * else. `None` is the `null` code Node reports for a process ended by a
   * signal, which falls in the last branch.
   */
  function ExitOutcome(code: Option<int>): (o: Outcome)
    ensures o == Succeeded <==> code == Some(0)
    ensures o == Failed <==> code == Some(1)
    ensures o == Cancelled <==> code.None? || (code.value != 0 && code.value != 1)
  {
    match code
    case Some(c) => if c == 0 then Succeeded else if c == 1 then Failed else Cancelled
    case None => Cancelled
  }

  /** The reason every task gives the base class for exit code 1. */
  const JvmProblem: string := "Problems with JVM..."

  /** The options modal a task opens in `run`. */
  datatype ModalState = NotShown | Shown | Destroyed

  /** `dialog.showErrorBox(title, content)`. */
  datatype ErrorBox = ErrorBox(title: string, content: string)

  /** `fldOutputFolder.getFolderRoute()` is truthy: a route was chosen and it is not empty. */
  predicate FolderChosen(route: Option<string>) {
    route.Some? && route.value != ""
  }

  /** `value || "[]"` for the text of a form field. */
  function OrPlaceholder(value: string): (r: string)
    ensures r != ""
    ensures value != "" ==> r == value
    ensures value == "" ==> r == "[]"
  {
    if value == "" then "[]" else value
  }

  /** `value || 0` for the text of a form field, as a template literal renders it. */
  function OrZero(value: string): (r: string)
    ensures r != ""
    ensures value != "" ==> r == value
    ensures value == "" ==> r == "0"
  {
    if value == "" then "0" else value
  }

  /** The `updateProgress` call a stdout chunk leads to: one when the chunk holds a ratio, none otherwise. */
  function ProgressCalls(update: Option<Progress.Percentage>): seq<BaseCall> {
    match update
    case Some(p) => [UpdateProgress(p)]
    case None => []
  }

  /** A chunk leads to exactly one progress update when it holds a ratio, under either formula. */
  lemma ProgressCallCount(chunk: string)
    ensures |ProgressCalls(Progress.FirstOverLast(chunk))| == (if Progress.HasRatio(chunk) then 1 else 0)
    ensures |ProgressCalls(Progress.FirstOverSecond(chunk))| == (if Progress.HasRatio(chunk) then 1 else 0)
  {
  }

  /** `${dir}${path.sep}${sub}${path.sep}${name}`: a file in a sub-folder of the output folder. */
  function FolderFile(dir: string, sub: string, name: string): string {
    NodePath.Join([dir, sub, name])
  }

  /** The file lies in `<dir>/<sub>/`. */
  lemma FolderFilePrefix(dir: string, sub: string, name: string)
    ensures |FolderFile(dir, sub, name)| > |dir + [NodePath.Sep] + sub|
    ensures FolderFile(dir, sub, name)[..|dir + [NodePath.Sep] + sub| + 1] == dir + [NodePath.Sep] + sub + [NodePath.Sep]
  {
    assert [dir, sub, name][1..] == [sub, name];
    assert [sub, name][1..] == [name];
    assert NodePath.Join([sub, name]) == sub + [NodePath.Sep] + name;
    assert FolderFile(dir, sub, name) == dir + [NodePath.Sep] + sub + [NodePath.Sep] + name;
  }

  /** The file lies in `<dir>/<sub>/` and is called `name`. */
  lemma FolderFileLocation(dir: string, sub: string, name: string)
    requires name != [] && NodePath.Sep !in name
    ensures |FolderFile(dir, sub, name)| > |dir + [NodePath.Sep] + sub|
    ensures FolderFile(dir, sub, name)[..|dir + [NodePath.Sep] + sub| + 1] == dir + [NodePath.Sep] + sub + [NodePath.Sep]
    ensures NodePath.Basename(FolderFile(dir, sub, name)) == name
  {
    FolderFilePrefix(dir, sub, name);
    NodePath.BasenameOfJoin([dir, sub, name]);
  }
}
