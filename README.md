# ComfyUI Gradio launcher: decision rules

`run_with_gradio.py` starts the ComfyUI server on a background thread. It
waits until the server answers over HTTP, picks the URL the UI frame should
use, and launches a small Gradio page that embeds ComfyUI. This project
models the deterministic rules inside that launcher and proves properties
of them:

- **Argument rewriting** (module `Argv`). When the script is imported it
  rewrites `sys.argv` before ComfyUI parses it. In a notebook (a `-f`
  argument, or `ipython` in `sys.modules`) the list is replaced by the one
  `_argv_for_comfy` builds (the method `ArgvForComfy`, specified by
  `ComfyArgv`). Otherwise `--listen 0.0.0.0` and `--disable-auto-launch`
  are appended when absent (`ForcedDefaults`). The class `Interpreter`
  holds `sys.argv` and the names in `sys.modules`. Its method
  `SanitizeArgv` performs the module-level branch in place.
- **Launch decisions** (module `Launcher`):
  - the URL fallback of `_get_comfyui_url` (`ChooseUrl`);
  - the `GRADIO_SHARE` switch (`ShareEnabled`);
  - the RuntimeError message when the server is not ready (`FailureMessage`);
  - the way `main` ends once the server thread is started (`Run`): a fatal
    error, the URL printed when Gradio is missing, or a launched page with
    its launch settings.
- **String builtins** (module `PyText`): `str.lower` on ASCII letters, and
  the decimal text of a port number (`str(8188)` in an f-string), with its
  inverse.

Inputs that the program gets from the outside world are parameters:

- whether the readiness probe succeeded (`ready`);
- the errors the server thread had captured by then (`errors`, each a type
  name and `str()` of the exception);
- the loaded module names (`modules`);
- the result of the Colab proxy lookup (`proxy`, where `None` means the
  import or the call raised, or returned nothing);
- whether `import gradio` succeeds (`uiAvailable`);
- `os.environ` as a map.

`COMFYUI_ROOT` is the parameter `root`. The script computes it at run time
from its own path, so it is not a fixed string. The six-word form of the
notebook rewrite needs `root` not to be one of the forced flags; an
absolute path never is.

A quirk of `_argv_for_comfy` is kept as written. Its `not in base` tests
look at the list being built (the program name, and after the first
append also the root), not at the original argument list. So each flag
group is appended unless the program name itself (or, for the later
groups, the root) equals that flag. `ComfyArgvProgramNamedListen` shows
the effect: when the program name is `--listen`, the result has no listen
address.

Python's `str.lower` covers all of Unicode; `PyText.Lower` lowers only
`A`-`Z`. This does not change `ShareEnabled`. Only two non-ASCII
characters lower-case into ASCII letters: KELVIN SIGN becomes `k`, and
LATIN CAPITAL LETTER I WITH DOT ABOVE becomes `i` followed by a combining
dot. Neither can produce `1`, `true` or `yes`, and every other non-ASCII
character lower-cases to non-ASCII text. So Python accepts the same values
the model does.

## Model

| member | source | states |
|---|---|---|
| `Argv.ArgvForComfy` | run_with_gradio.py:26-34 | builds, by successive conditional appends, exactly the list ComfyArgv specifies |
| `Argv.Interpreter.SanitizeArgv` | run_with_gradio.py:36-42 | sys.argv becomes the notebook rewrite when "-f" is an argument or ipython is loaded, otherwise argv with the missing defaults appended; sys.modules is untouched |
| `Argv.ComfyArgvStartsWithProgram` | run_with_gradio.py:27 | the rewritten list is non-empty and starts with argv[0], or "python" when argv is empty |
| `Argv.ComfyArgvDependsOnlyOnProgram` | run_with_gradio.py:26-34 | two argument lists with the same program name are rewritten to the same list |
| `Argv.ComfyArgvDropsOtherArguments` | run_with_gradio.py:26-34 | after position 0 the rewritten list holds only the three flags, "0.0.0.0" and the root |
| `Argv.ComfyArgvDropsKernelFlag` | run_with_gradio.py:22-37 | the kernel's "-f" is not in the rewritten list unless the program name or the root is "-f" |
| `Argv.ComfyArgvHasForcedFlags` | run_with_gradio.py:28-33 | "--base-directory", "--listen" and "--disable-auto-launch" always occur in the rewritten list |
| `Argv.ComfyArgvUsual` | run_with_gradio.py:27-33 | when neither the program name nor the root is a forced flag, the result is exactly [program, "--base-directory", root, "--listen", "0.0.0.0", "--disable-auto-launch"] |
| `Argv.ComfyArgvProgramNamedListen` | run_with_gradio.py:27-33 | the membership tests see the list being built: a program named "--listen" suppresses the listen group, leaving [--listen, --base-directory, root, --disable-auto-launch] |
| `Argv.ComfyArgvIdempotent` | run_with_gradio.py:26-34 | rewriting the rewritten list yields it again |
| `Argv.ForcedDefaultsShape` | run_with_gradio.py:39-42 | the result is argv followed by the listen pair only if "--listen" was absent, then "--disable-auto-launch" only if it was absent |
| `Argv.ForcedDefaultsExtends` | run_with_gradio.py:39-42 | the original argv is a prefix of the result and both flags are members of it |
| `Argv.ForcedDefaultsNoDuplicates` | run_with_gradio.py:39-42 | a flag already present keeps its count (a user's "--listen addr" is not doubled); an absent one occurs exactly once |
| `Argv.ForcedDefaultsIdempotent` | run_with_gradio.py:39-42 | applying the branch twice equals applying it once |
| `Argv.ForcedDefaultsFixesComplete` | run_with_gradio.py:39-42 | a list holding both flags is left unchanged |
| `Argv.SanitizedHasDefaults` | run_with_gradio.py:36-42 | whichever branch runs, ComfyUI's argv contains "--listen" and "--disable-auto-launch" |
| `Argv.SanitizedIdempotent` | run_with_gradio.py:36-42 | running the module-level branch again on its own result changes nothing |
| `PyText.Lower` | run_with_gradio.py:160 | lower-casing keeps the length and lower-cases each character in place |
| `PyText.LowerIffCaseVariant` | run_with_gradio.py:160 | for a lower-case word w, v.lower() == w exactly when v is w with some letters upper-cased |
| `PyText.Decimal` | run_with_gradio.py:45-46 | the text of a port number is a non-empty run of digits with no leading zero |
| `PyText.DecimalRoundTrip` | run_with_gradio.py:45-46 | reading the digits back gives the number |
| `Launcher.LocalUrlText` | run_with_gradio.py:45-46 | the local URL is "http://127.0.0.1:8188"; the eval_js expression asks proxyPort(8188) |
| `Launcher.ChooseUrl` | run_with_gradio.py:90-99 | the chosen URL is never empty and is either the local URL or the value the lookup returned |
| `Launcher.ChooseUrlFallback` | run_with_gradio.py:94-99 | a non-empty proxied value is used; a failed lookup or empty value gives the local URL; the local URL results exactly in those cases or when the proxy returned it |
| `Launcher.ShareEnabledIff` | run_with_gradio.py:160 | sharing is on exactly when GRADIO_SHARE is set to "1", "true" or "yes" in any letter case |
| `Launcher.ShareOffByDefault` | run_with_gradio.py:160 | without GRADIO_SHARE sharing is off |
| `Launcher.FailureMessage` | run_with_gradio.py:117-123 | the message always begins with the fixed "did not become ready" text |
| `Launcher.FailureMessageReportsFirstError` | run_with_gradio.py:116-124 | the message is the base text alone exactly when no error was captured; otherwise what follows is "Server thread failed with: T: m" for the first error |
| `Launcher.FailureMessageIgnoresLaterErrors` | run_with_gradio.py:121-123 | errors after the first do not affect the message |
| `Launcher.RunNeedsReadiness` | run_with_gradio.py:116-125 | main ends with the RuntimeError exactly when the server was not ready, and then carries FailureMessage of the captured errors |
| `Launcher.RunServedSettings` | run_with_gradio.py:127-162 | once ready with Gradio available: the frame shows the chosen URL, the Colab note appears only in Colab, the shell binds 0.0.0.0:7860 (not the server's port), opens a browser only outside Colab and shares only if GRADIO_SHARE asks |
| `Launcher.RunWithoutUi` | run_with_gradio.py:132-137 | without Gradio the chosen URL is reported instead of a page |
| `Launcher.LocalRunScenario` | run_with_gradio.py:127-162 | a local run embeds http://127.0.0.1:8188, launches on 0.0.0.0:7860 with a browser and no sharing |
| `Launcher.ColabRunScenario` | run_with_gradio.py:90-99 | in Colab with a proxied URL the frame uses that URL, no browser opens, and GRADIO_SHARE=TRUE enables sharing |

## Left out

- `_run_comfyui_server` (lines 52-68): it runs ComfyUI on a background thread. It changes the working directory and `sys.path`, imports `main`, and drives an external event loop. Only the list of errors it captures enters the model, as the `errors` input.
- `_wait_for_server` (lines 71-87): HTTP polling against a wall-clock deadline. Its boolean result is the `ready` input.
- `_expose_colab_port` and the `eval_js` call (lines 93-94, 102-108): calls into Colab. The proxy lookup appears only as its `Option` result. The port exposure has no effect on any modelled value.
- The shared `_server_start_error` list as a channel between threads (lines 49, 67, 121): only the message built from its contents is modelled, not the handoff.
- Gradio page construction (lines 139-154): the theme, CSS, Markdown and iframe HTML are not modelled. The page keeps only whether the Colab note is shown and the frame's address.
- `Argv.Interpreter.SanitizeArgv`: `sys.argv[:] = ...` replaces the contents of the list object that other code may hold. The model replaces a `seq` field, so aliasing of the list is not captured.
- `PyText.Lower`: only ASCII letters are lower-cased (see above for why the share switch is unaffected).
- The `print` calls in `main` (lines 112, 125, 135-136): console output only.
