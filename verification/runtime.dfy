/**
 * The process the packaging steps run in, as far as the steps can observe
 * it: a working directory, the commands spawned through the dispatcher,
 * and the scratch directories that are alive.
 *
 * A spawn whose executable was not found (`shutil.which` gave `None`)
 * raises; otherwise the command is recorded and the step carries on, since
 * the steps never look at an exit status. A run of several spawns stops at
 * the first one that raises.
 */
module Runtime {

  import opened Wrappers
  import opened Paths

  /** One spawned command: its argument vector and the directory it ran in. */
  datatype Command = Command(argv: seq<string>, cwd: Path)

  /** What a piece of a step spawned, and whether it got to its end without raising. */
  datatype Run = Run(spawned: seq<Command>, completed: bool)

  /** Nothing spawned, nothing raised. */
  function Done(): Run {
    Run([], true)
  }

  /** `a` then `b`: `b` happens only when `a` did not raise. */
  function Then(a: Run, b: Run): (r: Run)
    ensures a.completed ==> r.spawned == a.spawned + b.spawned && r.completed == b.completed
    ensures !a.completed ==> r == a
  {
    if a.completed then Run(a.spawned + b.spawned, b.completed) else a
  }

  /** One `dsp.spawn`: raises when the executable is missing, else records the command. */
  function SpawnRun(exe: Option<Path>, args: seq<string>, cwd: Path): (r: Run)
    ensures r.completed <==> exe.Some?
    ensures r.completed ==> r.spawned == [Command([exe.value] + args, cwd)]
    ensures !r.completed ==> r.spawned == []
  {
    if exe.None? then Run([], false) else Run([Command([exe.value] + args, cwd)], true)
  }

  /** A proof aid, not a property of the model: appending in two steps or in one gives the same record. */
  lemma Appended(a: seq<Command>, b: seq<Command>, c: seq<Command>)
    ensures (a + b) + c == a + (b + c)
  {
  }

  /** `Done` is a unit of `Then` on both sides. */
  lemma ThenDone(a: Run)
    ensures Then(Done(), a) == a
    ensures Then(a, Done()) == a
  {
  }

  /** Sequencing is associative, so a run can be split anywhere. */
  lemma ThenAssociative(a: Run, b: Run, c: Run)
    ensures Then(Then(a, b), c) == Then(a, Then(b, c))
  {
    if a.completed && b.completed {
      assert (a.spawned + b.spawned) + c.spawned == a.spawned + (b.spawned + c.spawned);
    }
  }

  /** Two runs that both complete make one that completes, with their commands in order. */
  lemma ThenCompleted(a: Run, b: Run)
    requires a.completed && b.completed
    ensures Then(a, b) == Run(a.spawned + b.spawned, true)
  {
  }

  /**
   * In `a` then `b` then `c`: the first command is `a`'s first, and when
   * the whole completes its last command is `c`'s last.
   */
  lemma ThenEnds(a: Run, b: Run, c: Run)
    requires a.spawned != []
    ensures Then(a, Then(b, c)).spawned != [] && Then(a, Then(b, c)).spawned[0] == a.spawned[0]
    ensures Then(a, Then(b, c)).completed && c.spawned != [] ==>
      var all := Then(a, Then(b, c)).spawned; all[|all| - 1] == c.spawned[|c.spawned| - 1]
  {
  }

  /**
   * One step of a loop that has spawned `done` so far: running `r` and then
   * `rest` either goes on with `r`'s commands added, or stops right after them.
   */
  lemma ThenStep(done: seq<Command>, r: Run, rest: Run)
    ensures r.completed ==> Then(Run(done, true), Then(r, rest)) == Then(Run(done + r.spawned, true), rest)
    ensures !r.completed ==> Then(Run(done, true), Then(r, rest)) == Run(done + r.spawned, false)
  {
    if r.completed {
      assert done + (r.spawned + rest.spawned) == (done + r.spawned) + rest.spawned;
    }
  }

  /**
   * The process: its working directory (always absolute, as `os.getcwd()`
   * returns it), the commands spawned so far, and the stack of scratch
   * directories that exist.
   */
  class Host {
    var cwd: Path
    var spawned: seq<Command>
    var scratch: seq<Path>

    predicate Valid()
      reads this`cwd
    {
      IsAbsolute(cwd)
    }

    constructor (cwd: Path)
      requires IsAbsolute(cwd)
      ensures Valid() && this.cwd == cwd && spawned == [] && scratch == []
    {
      this.cwd := cwd;
      spawned := [];
      scratch := [];
    }

    /** `dsp.spawn(argv)` with `argv[0]` the result of `shutil.which`; `false` when it raises. */
    method Spawn(exe: Option<Path>, args: seq<string>) returns (ok: bool)
      modifies this`spawned
      ensures spawned == old(spawned) + SpawnRun(exe, args, cwd).spawned
      ensures ok == SpawnRun(exe, args, cwd).completed
    {
      if exe.None? {
        return false;
      }
      spawned := spawned + [Command([exe.value] + args, cwd)];
      return true;
    }

    /** `os.chdir(dir)`: a relative directory is resolved against the current one. */
    method Chdir(dir: Path)
      requires Valid()
      modifies this`cwd
      ensures Valid()
      ensures cwd == Absolute(old(cwd), dir)
      ensures IsAbsolute(dir) ==> cwd == dir
    {
      cwd := Absolute(cwd, dir);
    }

    /** Entering a `tempfile.TemporaryDirectory` block: the directory exists until the block is left. */
    method OpenScratch(dir: Path)
      modifies this`scratch
      ensures scratch == old(scratch) + [dir]
    {
      scratch := scratch + [dir];
    }

    /** Leaving the block, normally or by an exception: the newest directory is removed. */
    method CloseScratch()
      requires scratch != []
      modifies this`scratch
      ensures scratch == old(scratch[..|scratch| - 1])
    {
      scratch := scratch[..|scratch| - 1];
    }
  }
}
