/**
 * The `pup.pip-install` step: applicable when packaging on macOS or on
 * Windows for that same platform; running it only logs a reminder that
 * installing the project is not done yet.
 */
module PipInstall {

  import opened Runtime
  import opened BuildContext
  import MacSign

  /** The warning the step logs when it runs. */
  const Reminder := "TODO: pip install src"

  /** `usable_in`: packaging on macOS or Windows, for the platform packaged on. */
  predicate UsableIn(t: Target) {
    (t.pkgPlatform == "darwin" || t.pkgPlatform == "win32") && t.pkgPlatform == t.tgtPlatform
  }

  /** The step is usable exactly for macOS to macOS and for Windows to Windows. */
  lemma UsableExactly(t: Target)
    ensures UsableIn(t) <==>
      (t.pkgPlatform == "darwin" && t.tgtPlatform == "darwin") || (t.pkgPlatform == "win32" && t.tgtPlatform == "win32")
  {
  }

  /** Packaging for another platform than the one packaged on never uses the step. */
  lemma NotUsableAcrossPlatforms(t: Target)
    requires t.pkgPlatform != t.tgtPlatform
    ensures !UsableIn(t)
  {
  }

  /** Packaging on any other platform, Linux say, never uses the step. */
  lemma NotUsableElsewhere(t: Target)
    requires t.pkgPlatform != "darwin" && t.pkgPlatform != "win32"
    ensures !UsableIn(t)
  {
  }

  /** Wherever the signing step is usable, so is this one. */
  lemma UsableWhereSigning(t: Target)
    requires MacSign.UsableIn(t)
    ensures UsableIn(t)
  {
  }

  /** `Step()(ctx, dsp)`: the warning it logs; the context and the dispatcher are left as they were. */
  method Call(ctx: Context, host: Host) returns (warning: string)
    ensures warning == Reminder
    ensures ctx.Snapshot() == old(ctx.Snapshot()) && host.spawned == old(host.spawned) && host.cwd == old(host.cwd)
  {
    warning := Reminder;
  }
}
