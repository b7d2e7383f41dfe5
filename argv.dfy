/**
 * The command-line rewriting done when run_with_gradio.py is imported:
 * `_argv_for_comfy` and the module-level branch that rewrites `sys.argv`
 * before ComfyUI's own argument parser reads it.
 */
module Argv {

  const BaseDirFlag: string := "--base-directory"
  const ListenFlag: string := "--listen"
  const ListenAll: string := "0.0.0.0"
  const NoAutoLaunchFlag: string := "--disable-auto-launch"
  /** The flag a notebook kernel passes with its connection file. */
  const KernelFileFlag: string := "-f"
  /** The module whose presence in `sys.modules` marks an IPython session. */
  const IPythonModule: string := "ipython"
  /** The program name used when `sys.argv` is empty. */
  const DefaultProgram: string := "python"

  /** The flags whose groups the rewrite forces onto the command line. */
  predicate IsForcedFlag(s: string) {
    s == BaseDirFlag || s == ListenFlag || s == NoAutoLaunchFlag
  }

  /** `args` with `group` appended unless `flag` already occurs in `args`. */
  function AppendUnless(args: seq<string>, flag: string, group: seq<string>): seq<string>
  {
    if flag in args then args else args + group
  }

  /** `sys.argv[0]`, or "python" for an empty argument list. */
  function ProgramName(argv: seq<string>): string
  {
    if argv == [] then DefaultProgram else argv[0]
  }

  /**
   * The list `_argv_for_comfy` builds. Each membership test looks at the
   * list built so far, never at `argv` itself.
   */
  function ComfyArgv(argv: seq<string>, root: string): seq<string>
  {
    var withBase := AppendUnless([ProgramName(argv)], BaseDirFlag, [BaseDirFlag, root]);
    var withListen := AppendUnless(withBase, ListenFlag, [ListenFlag, ListenAll]);
    AppendUnless(withListen, NoAutoLaunchFlag, [NoAutoLaunchFlag])
  }

  /** The list the non-notebook branch leaves in `sys.argv`. */
  function ForcedDefaults(argv: seq<string>): seq<string>
  {
    AppendUnless(AppendUnless(argv, ListenFlag, [ListenFlag, ListenAll]), NoAutoLaunchFlag, [NoAutoLaunchFlag])
  }

  /** The notebook test: a kernel's "-f" argument, or IPython already loaded. */
  predicate NotebookDetected(argv: seq<string>, modules: set<string>)
  {
    KernelFileFlag in argv || IPythonModule in modules
  }

  /** What `sys.argv` holds once the module-level branch has run. */
  function Sanitized(argv: seq<string>, modules: set<string>, root: string): seq<string>
  {
    if NotebookDetected(argv, modules) then ComfyArgv(argv, root) else ForcedDefaults(argv)
  }

  /** `_argv_for_comfy`: builds the replacement list by conditional appends. */
  method ArgvForComfy(argv: seq<string>, root: string) returns (base: seq<string>)
    ensures base == ComfyArgv(argv, root)
  {
    base := if argv != [] then [argv[0]] else [DefaultProgram];
    if BaseDirFlag !in base {
      base := base + [BaseDirFlag, root];
    }
    if ListenFlag !in base {
      base := base + [ListenFlag, ListenAll];
    }
    if NoAutoLaunchFlag !in base {
      base := base + [NoAutoLaunchFlag];
    }
  }

  /** The interpreter state the launcher reads and rewrites: `sys.argv` and the names in `sys.modules`. */
  class Interpreter {
    var argv: seq<string>
    var modules: set<string>

    constructor (argv: seq<string>, modules: set<string>)
      ensures this.argv == argv && this.modules == modules
    {
      this.argv := argv;
      this.modules := modules;
    }

    /** The module-level branch: replace `sys.argv` wholesale, or extend it in place. */
    method SanitizeArgv(root: string)
      modifies this`argv
      ensures argv == Sanitized(old(argv), modules, root)
    {
      if KernelFileFlag in argv || IPythonModule in modules {
        var replacement := ArgvForComfy(argv, root);
        argv := replacement;
      } else {
        if ListenFlag !in argv {
          argv := argv + [ListenFlag, ListenAll];
        }
        if NoAutoLaunchFlag !in argv {
          argv := argv + [NoAutoLaunchFlag];
        }
      }
    }
  }

  // ---------------------------------------------------------------------
  // The notebook rewrite

  /** The rewritten list starts with the program name, or "python" when argv is empty. */
  lemma ComfyArgvStartsWithProgram(argv: seq<string>, root: string)
    ensures |ComfyArgv(argv, root)| >= 1
    ensures ComfyArgv(argv, root)[0] == (if argv == [] then DefaultProgram else argv[0])
  {
  }

  /** The rewrite depends on `argv[0]` alone: the rest of argv, such as "-f <kernel.json>", is dropped. */
  lemma ComfyArgvDependsOnlyOnProgram(a: seq<string>, b: seq<string>, root: string)
    requires ProgramName(a) == ProgramName(b)
    ensures ComfyArgv(a, root) == ComfyArgv(b, root)
  {
  }

  /** After the program name, the rewritten list holds only the forced flags, their values and the root. */
  lemma ComfyArgvDropsOtherArguments(argv: seq<string>, root: string)
    ensures forall i :: 1 <= i < |ComfyArgv(argv, root)| ==>
      IsForcedFlag(ComfyArgv(argv, root)[i]) || ComfyArgv(argv, root)[i] in {root, ListenAll}
  {
  }

  /** Hence the kernel's "-f" does not survive, unless the program name or the root is "-f". */
  lemma ComfyArgvDropsKernelFlag(argv: seq<string>, root: string)
    requires ProgramName(argv) != KernelFileFlag && root != KernelFileFlag
    ensures KernelFileFlag !in ComfyArgv(argv, root)
  {
  }

  /** Every forced flag occurs in the rewritten list. */
  lemma ComfyArgvHasForcedFlags(argv: seq<string>, root: string)
    ensures BaseDirFlag in ComfyArgv(argv, root)
    ensures ListenFlag in ComfyArgv(argv, root)
    ensures NoAutoLaunchFlag in ComfyArgv(argv, root)
  {
  }

  /** In the usual case the rewrite is exactly these six words, in this order. */
  lemma ComfyArgvUsual(argv: seq<string>, root: string)
    requires !IsForcedFlag(ProgramName(argv)) && !IsForcedFlag(root)
    ensures ComfyArgv(argv, root) ==
      [ProgramName(argv), BaseDirFlag, root, ListenFlag, ListenAll, NoAutoLaunchFlag]
  {
  }

  /**
   * The membership tests look at the list being built, not at argv: when
   * the program name itself is "--listen", the listen group is skipped.
   */
  lemma ComfyArgvProgramNamedListen(argv: seq<string>, root: string)
    requires ProgramName(argv) == ListenFlag && !IsForcedFlag(root)
    ensures ComfyArgv(argv, root) == [ListenFlag, BaseDirFlag, root, NoAutoLaunchFlag]
  {
  }

  /** Rewriting an already rewritten list changes nothing. */
  lemma ComfyArgvIdempotent(argv: seq<string>, root: string)
    ensures ComfyArgv(ComfyArgv(argv, root), root) == ComfyArgv(argv, root)
  {
  }

  // ---------------------------------------------------------------------
  // The non-notebook branch

  /** The original argv is kept and each default is added only when its flag is absent. */
  lemma ForcedDefaultsShape(argv: seq<string>)
    ensures ForcedDefaults(argv) ==
      argv + (if ListenFlag in argv then [] else [ListenFlag, ListenAll])
           + (if NoAutoLaunchFlag in argv then [] else [NoAutoLaunchFlag])
  {
  }

  /** The original argv is a prefix and both flags are members afterwards. */
  lemma ForcedDefaultsExtends(argv: seq<string>)
    ensures argv <= ForcedDefaults(argv)
    ensures ListenFlag in ForcedDefaults(argv) && NoAutoLaunchFlag in ForcedDefaults(argv)
  {
  }

  /** A flag already present is not added again: each flag occurs as often as before, at least once. */
  lemma ForcedDefaultsNoDuplicates(argv: seq<string>)
    ensures multiset(ForcedDefaults(argv))[ListenFlag] ==
      if ListenFlag in argv then multiset(argv)[ListenFlag] else 1
    ensures multiset(ForcedDefaults(argv))[NoAutoLaunchFlag] ==
      if NoAutoLaunchFlag in argv then multiset(argv)[NoAutoLaunchFlag] else 1
  {
  }

  /** Applying the branch twice equals applying it once. */
  lemma ForcedDefaultsIdempotent(argv: seq<string>)
    ensures ForcedDefaults(ForcedDefaults(argv)) == ForcedDefaults(argv)
  {
  }

  /** The non-notebook branch leaves a list that already holds both flags unchanged. */
  lemma ForcedDefaultsFixesComplete(args: seq<string>)
    requires ListenFlag in args && NoAutoLaunchFlag in args
    ensures ForcedDefaults(args) == args
  {
  }

  // ---------------------------------------------------------------------
  // The module-level branch as a whole

  /** Whichever branch runs, ComfyUI sees "--listen" and "--disable-auto-launch". */
  lemma SanitizedHasDefaults(argv: seq<string>, modules: set<string>, root: string)
    ensures ListenFlag in Sanitized(argv, modules, root)
    ensures NoAutoLaunchFlag in Sanitized(argv, modules, root)
  {
  }

  /** Running the branch again on its own result (a re-imported module) changes nothing. */
  lemma SanitizedIdempotent(argv: seq<string>, modules: set<string>, root: string)
    ensures Sanitized(Sanitized(argv, modules, root), modules, root) == Sanitized(argv, modules, root)
  {
  }
}
