/**
 * The ImageJ extension's own state: the memory limits it launches the Java
 * process with, the install directory, the batch command it spawns for a
 * macro, and the configuration dialog that edits the limits.
 */
module Extension {
  import opened Wrappers
  import opened Text
  import NodePath

  /** A request to `child_process.spawn(command, args, {cwd})`. */
  datatype Spawn = Spawn(command: string, args: seq<string>, cwd: string)

  /** The stack-memory ceiling, in megabytes. */
  const MaxStackMemory: nat := 515

  /** `Atlas<sep><macro>.ijm`: the macro file the batch run executes. */
  function MacroPath(macro: string): string {
    "Atlas" + [NodePath.Sep] + macro + ".ijm"
  }

  /** The macro file lies in the `Atlas` folder and is named after the macro. */
  lemma MacroPathInAtlas(macro: string)
    requires macro != [] && NodePath.Sep !in macro
    ensures MacroPath(macro) == NodePath.Join(["Atlas", macro + ".ijm"])
    ensures NodePath.Basename(MacroPath(macro)) == macro + ".ijm"
  {
    assert NodePath.Sep !in macro + ".ijm";
    NodePath.BasenameAfterSep("Atlas", macro + ".ijm");
  }

  /** `s` launches ImageJ in batch mode on `macro` with the argument string `args`. */
  predicate RunsMacro(s: Spawn, macro: string, args: string) {
    && s.command == "java"
    && |s.args| == 7
    && s.args[5] == MacroPath(macro)
    && s.args[6] == args
  }

  /** Reads back the number in a JVM memory flag `<prefix><n>m`. */
  function FlagValue(flag: string, prefix: string): Option<int> {
    if |flag| > |prefix| && flag[..|prefix|] == prefix && flag[|flag| - 1] == 'm'
    then ParseInt(flag[|prefix|..|flag| - 1])
    else None
  }

  /** A memory flag renders its number so that it can be read back. */
  lemma FlagRoundTrip(prefix: string, n: int)
    ensures FlagValue(prefix + IntToString(n) + "m", prefix) == Some(n)
  {
    var flag := prefix + IntToString(n) + "m";
    assert flag[..|prefix|] == prefix;
    assert flag[|prefix|..|flag| - 1] == IntToString(n);
    ParseIntOfIntToString(n);
  }

  /** `parseInt(Math.min(value, max))`: the smaller of the two, truncated toward zero. */
  function ClampEntry(value: real, max: nat): (r: int)
    ensures r <= max
    ensures value >= max as real ==> r == max
    ensures 0.0 <= value <= max as real ==> r == value.Floor
    ensures value < 0.0 ==> value <= r as real <= 0.0
    ensures value < 0.0 ==> r == -((-value).Floor)
  {
    var m := if value < max as real then value else max as real;
    if m >= 0.0 then m.Floor else -((-m).Floor)
  }

  class ImageJExtension {
    const maxMemory: nat
    const maxStackMemory: nat
    var memory: int
    var stackMemory: int
    /** The ImageJ install directory, the working directory of every batch run. */
    const imagejpath: string

    /** Neither limit exceeds its ceiling. */
    ghost predicate Valid()
      reads this
    {
      memory <= maxMemory && stackMemory <= maxStackMemory
    }

    /**
     * Both limits start at their ceilings; `maxMemory` is 70% of the
     * machine's memory in megabytes, given here as a number.
     */
    constructor (maxMemory: nat, imagejpath: string)
      ensures Valid()
      ensures this.maxMemory == maxMemory && memory == maxMemory
      ensures maxStackMemory == MaxStackMemory && stackMemory == MaxStackMemory
      ensures this.imagejpath == imagejpath
    {
      this.maxMemory := maxMemory;
      this.maxStackMemory := MaxStackMemory;
      this.memory := maxMemory;
      this.stackMemory := MaxStackMemory;
      this.imagejpath := imagejpath;
    }

    /** `run(macro, args)`: the batch command, run from the install directory. */
    function Run(macro: string, args: string): (s: Spawn)
      reads this
      ensures RunsMacro(s, macro, args)
      ensures s.cwd == imagejpath
    {
      var xmx := "-Xmx" + IntToString(memory) + "m";
      var xss := "-Xss" + IntToString(stackMemory) + "m";
      Spawn("java", [xmx, xss, "-jar", "ij.jar", "-batchpath", MacroPath(macro), args], imagejpath)
    }

    /** The command's JVM flags carry the current limits, followed by the batch-mode options. */
    lemma RunFlags(macro: string, args: string)
      ensures FlagValue(Run(macro, args).args[0], "-Xmx") == Some(memory)
      ensures FlagValue(Run(macro, args).args[1], "-Xss") == Some(stackMemory)
      ensures Run(macro, args).args[2..5] == ["-jar", "ij.jar", "-batchpath"]
    {
      FlagRoundTrip("-Xmx", memory);
      FlagRoundTrip("-Xss", stackMemory);
    }
  }

  /**
   * The `conf` copy that `configImageJ` edits: the memory fields' blur
   * handlers clamp into it, Save copies it into the extension and Cancel
   * only closes the modal.
   */
  class ConfigDialog {
    const ext: ImageJExtension
    var memory: int
    var stackMemory: int
    var open: bool

    ghost predicate Valid()
      reads this, ext
    {
      memory <= ext.maxMemory && stackMemory <= ext.maxStackMemory
    }

    constructor (ext: ImageJExtension)
      requires ext.Valid()
      ensures Valid() && open
      ensures this.ext == ext && memory == ext.memory && stackMemory == ext.stackMemory
    {
      this.ext := ext;
      this.memory := ext.memory;
      this.stackMemory := ext.stackMemory;
      this.open := true;
    }

    /** The memory field loses focus holding `value`. */
    method BlurMemory(value: real)
      requires Valid() && open
      modifies this`memory
      ensures Valid()
      ensures memory == ClampEntry(value, ext.maxMemory)
    {
      memory := ClampEntry(value, ext.maxMemory);
    }

    /** The stack-memory field loses focus holding `value`. */
    method BlurStackMemory(value: real)
      requires Valid() && open
      modifies this`stackMemory
      ensures Valid()
      ensures stackMemory == ClampEntry(value, ext.maxStackMemory)
    {
      stackMemory := ClampEntry(value, ext.maxStackMemory);
    }

    /** Save: the pending values become the extension's. */
    method Save()
      requires Valid() && open
      modifies ext`memory, ext`stackMemory, this`open
      ensures ext.Valid() && !open
      ensures ext.memory == memory && ext.stackMemory == stackMemory
    {
      ext.memory := memory;
      ext.stackMemory := stackMemory;
      open := false;
    }

    /** Cancel: the modal closes and the extension keeps its values. */
    method Cancel()
      requires open
      modifies this`open
      ensures !open
      ensures unchanged(ext)
    {
      open := false;
    }
  }
}
