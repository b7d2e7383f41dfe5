/**
 * The decisions `main` in run_with_gradio.py makes once the server thread
 * is started: the startup-failure message, the URL the UI frame points at,
 * the public-share switch and the launch settings of the UI shell.
 * Readiness polling, the proxy lookup and the import of the UI library are
 * inputs here: their results are parameters.
 */
module Launcher {
  import opened Wrappers
  import opened PyText

  const ComfyPort: nat := 8188
  const UiPort: nat := 7860
  /** The wildcard bind address of the UI shell. */
  const UiHost: string := "0.0.0.0"
  /** `COMFYUI_URL_LOCAL`, formatted from the port. */
  const LocalUrl: string := "http://127.0.0.1:" + Decimal(ComfyPort)
  /** The expression handed to the notebook host's `eval_js` to ask for the proxied URL. */
  const ProxyQuery: string := "google.colab.kernel.proxyPort(" + Decimal(ComfyPort) + ")"
  /** The module whose presence in `sys.modules` marks a Colab session. */
  const ColabModule: string := "google.colab"
  /** The environment variable that opts into public sharing. */
  const ShareVariable: string := "GRADIO_SHARE"
  /** The lower-cased values of ShareVariable that enable sharing. */
  const ShareWords: seq<string> := ["1", "true", "yes"]
  const NotReadyText: string := "ComfyUI server did not become ready in time. Check the console for errors."
  const ThreadFailedText: string := "\n\nServer thread failed with: "

  /** An exception captured on the server thread: its type's name and `str()` of it. */
  datatype StartupError = StartupError(typeName: string, message: string)

  datatype LaunchConfig = LaunchConfig(serverName: string, serverPort: nat, share: bool, inBrowser: bool)

  /** The page the UI shell shows: the Colab hint and the address of the embedded frame. */
  datatype Page = Page(colabNote: bool, frameSrc: string)

  /** How `main` ends. */
  datatype Outcome =
    | NotReady(message: string)                  // RuntimeError raised, no UI built
    | ConsoleOnly(url: string)                   // the UI library is missing: the URL is printed
    | Served(page: Page, launch: LaunchConfig)   // the UI shell is launched

  lemma LocalUrlText()
    ensures LocalUrl == "http://127.0.0.1:8188"
    ensures ProxyQuery == "google.colab.kernel.proxyPort(8188)"
  {
  }

  /**
   * `_get_comfyui_url` given the outcome of the proxy lookup: None when the
   * import or the call raised or returned nothing, else what it returned.
   */
  function ChooseUrl(proxy: Option<string>): (url: string)
    ensures url != ""
    ensures url == LocalUrl || proxy == Some(url)
  {
    match proxy
    case Some(u) => if u != "" then u else LocalUrl
    case None => LocalUrl
  }

  /** A non-empty proxied URL always wins; any failure falls back to the loopback URL. */
  lemma ChooseUrlFallback(proxy: Option<string>)
    ensures proxy.Some? && proxy.value != "" ==> ChooseUrl(proxy) == proxy.value
    ensures proxy == None || proxy == Some("") ==> ChooseUrl(proxy) == LocalUrl
    ensures ChooseUrl(proxy) == LocalUrl <==> proxy == None || proxy == Some("") || proxy == Some(LocalUrl)
  {
  }

  /** The `share=` argument: the variable's value (absent reads as "") lower-cased is a ShareWord. */
  predicate ShareEnabled(environ: map<string, string>)
  {
    var value := if ShareVariable in environ then environ[ShareVariable] else "";
    Lower(value) in ShareWords
  }

  /** Sharing is on exactly when the variable is set to "1", "true" or "yes" in any letter case. */
  lemma {:induction false} ShareEnabledIff(environ: map<string, string>)
    ensures ShareEnabled(environ) <==>
      ShareVariable in environ &&
      environ[ShareVariable] in CaseVariants("1") + CaseVariants("true") + CaseVariants("yes")
  {
    assert Lower("1") == "1" && Lower("true") == "true" && Lower("yes") == "yes";
    if ShareVariable in environ {
      var v := environ[ShareVariable];
      LowerIffCaseVariant(v, "1");
      LowerIffCaseVariant(v, "true");
      LowerIffCaseVariant(v, "yes");
    } else {
      assert Lower("") == "";
    }
  }

  /** Never on by default: an absent variable disables sharing. */
  lemma ShareOffByDefault(environ: map<string, string>)
    requires ShareVariable !in environ
    ensures !ShareEnabled(environ)
  {
  }

  /** The message of the RuntimeError raised when the server is not ready in time. */
  function FailureMessage(errors: seq<StartupError>): (msg: string)
    ensures NotReadyText <= msg
  {
    if errors == [] then NotReadyText
    else NotReadyText + ThreadFailedText + errors[0].typeName + ": " + errors[0].message
  }

  /**
   * A crash is told apart from slowness: the message is the bare base text
   * exactly when nothing was captured, and otherwise goes on to name the
   * first captured error's type and message.
   */
  lemma FailureMessageReportsFirstError(errors: seq<StartupError>)
    ensures FailureMessage(errors) == NotReadyText <==> errors == []
    ensures errors != [] ==>
      FailureMessage(errors)[|NotReadyText|..] ==
        ThreadFailedText + errors[0].typeName + ": " + errors[0].message
  {
    if errors != [] {
      assert |FailureMessage(errors)| > |NotReadyText|;
    }
  }

  /** Only the first captured error is reported. */
  lemma FailureMessageIgnoresLaterErrors(errors: seq<StartupError>)
    requires errors != []
    ensures FailureMessage(errors) == FailureMessage(errors[..1])
  {
  }

  /** The arguments of `app.launch`. */
  function LaunchFor(inColab: bool, environ: map<string, string>): LaunchConfig
  {
    LaunchConfig(UiHost, UiPort, ShareEnabled(environ), !inColab)
  }

  /**
   * `main` after the server thread is started, given whether the readiness
   * probe succeeded, the errors captured by then, the loaded module names,
   * the proxy lookup's outcome, whether the UI library imports, and the
   * environment.
   */
  function Run(ready: bool, errors: seq<StartupError>, modules: set<string>, proxy: Option<string>,
               uiAvailable: bool, environ: map<string, string>): Outcome
  {
    if !ready then NotReady(FailureMessage(errors))
    else
      var inColab := ColabModule in modules;
      var url := ChooseUrl(proxy);
      if !uiAvailable then ConsoleOnly(url)
      else Served(Page(inColab, url), LaunchFor(inColab, environ))
  }

  /** No UI is built, and no URL reported, unless the server became ready. */
  lemma RunNeedsReadiness(ready: bool, errors: seq<StartupError>, modules: set<string>,
                          proxy: Option<string>, uiAvailable: bool, environ: map<string, string>)
    ensures Run(ready, errors, modules, proxy, uiAvailable, environ).NotReady? <==> !ready
    ensures !ready ==> Run(ready, errors, modules, proxy, uiAvailable, environ) == NotReady(FailureMessage(errors))
  {
  }

  /** What the launched UI shell is given once the server is ready. */
  lemma RunServedSettings(errors: seq<StartupError>, modules: set<string>,
                          proxy: Option<string>, environ: map<string, string>)
    ensures var o := Run(true, errors, modules, proxy, true, environ);
      && o.Served?
      && o.page.frameSrc == ChooseUrl(proxy)
      && o.page.colabNote == (ColabModule in modules)
      && o.launch.serverName == UiHost && o.launch.serverPort == UiPort && UiPort != ComfyPort
      && o.launch.inBrowser == (ColabModule !in modules)
      && o.launch.share == ShareEnabled(environ)
  {
  }

  /** Without the UI library the resolved URL is printed instead. */
  lemma RunWithoutUi(errors: seq<StartupError>, modules: set<string>,
                     proxy: Option<string>, environ: map<string, string>)
    ensures Run(true, errors, modules, proxy, false, environ) == ConsoleOnly(ChooseUrl(proxy))
  {
  }

  /** A local run: loopback URL, browser opened, no sharing. */
  lemma LocalRunScenario()
    ensures Run(true, [], {}, None, true, map[]) ==
      Served(Page(false, "http://127.0.0.1:8188"), LaunchConfig("0.0.0.0", 7860, false, true))
  {
  }

  /** A Colab run whose proxy lookup succeeds: the frame uses the proxied URL, no browser. */
  lemma ColabRunScenario()
    ensures Run(true, [], {ColabModule}, Some("https://proxy.example/abc123/"), true, map[ShareVariable := "TRUE"]) ==
      Served(Page(true, "https://proxy.example/abc123/"), LaunchConfig("0.0.0.0", 7860, true, false))
  {
    assert Lower("TRUE") == "true";
  }
}
