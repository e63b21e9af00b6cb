/**
  MainWindowViewModel: the application orchestrator. It guards against a
  second running instance, runs the phased startup (terminal number from the
  command line, banner log lines, splash screen, navigation to the main view)
  under try/catch/finally, navigates between the main and feature views,
  creates the child view-models lazily, and cascades shutdown to the main
  child.

  The base-class state (property notices, LogMessage, the disposed flag) is
  the ViewModelBase object `base`; the child view-models are ViewModelBase
  objects too. Message boxes, the splash window and Application.Shutdown are
  recorded as effects; the single-instance test and the dialog answer are
  inputs.
 */
module MainWindowModel {
  import opened Wrappers
  import opened Exceptions
  import opened IntText
  import BLL
  import opened ViewModels

  /** The two views, and the child view-model behind each. */
  datatype Screen = Main | Feature

  /** The answer to the "Close program?" question. */
  datatype Answer = Yes | No

  /** The splash window held in _splashWindow. */
  datatype Splash = Splash(status: string, closeButton: bool, open: bool)

  /** What the orchestrator does outside its own fields, in order. */
  datatype Effect =
    | AlreadyRunningNotice              // "Another version ... is already started" box
    | SetupErrorNotice(error: string)   // ShowSetupError
    | CloseConfirmation                 // "Close program?" box
    | SplashShown(status: string, closeButton: bool)
    | SplashStatus(status: string)
    | SplashClosed
    | ChildCreated(child: Screen)       // created and subscribed to
    | ChildInitialized(child: Screen)
    | ChildPrepared(child: Screen)
    | ChildDisposed(child: Screen)
    | Shutdown(exitCode: int)           // Application.Current.Shutdown

  const Banner: string := "**********************************************************************************"
  const InitializingStatus: string := "Initializing application..."
  const LoadingStatus: string := "Loading configuration..."
  const HardwareStatus: string := "Connecting to hardware..."

  /** Stands for the resource string Resources.TerminalNoParseError. */
  const TerminalNoParseError: string := "TerminalNoParseError"

  const StartingText: string := " starting and initializing"
  const InitializingText: string := "Initializing MainModel (Connecting to database and loading configuration)..."
  const InitializedText: string := "Configuration has been read and MainWindowViewModel is initialized"
  const FailedText: string := "MainWindowViewModel Initialize failed: "

  /** The terminal part of Title: "Unspecified" for terminal 0, else the number. */
  function TerminalText(n: int): (r: string)
    ensures n == 0 <==> r == "Unspecified"
    ensures n != 0 ==> |r| >= 1 && (IsDigit(r[0]) || r[0] == '-')
  {
    if n == 0 then "Unspecified" else IntToString(n)
  }

  /** The part of the window title the model keeps. */
  function Title(n: int): (r: string)
    ensures |r| == |TerminalText(n)| + 12
    ensures r[..11] == "(Terminal: " && r[|r| - 1] == ')'
    ensures r[11..|r| - 1] == TerminalText(n)
  {
    "(Terminal: " + TerminalText(n) + ")"
  }

  /** The terminal part of the title tells an unspecified terminal apart from
      every numbered one and reads back as the terminal number. */
  lemma TerminalTextReadsBack(n: int)
    requires InInt32(n)
    ensures n == 0 <==> TerminalText(n) == "Unspecified"
    ensures n != 0 ==> ParseInt(TerminalText(n)) == Some(n)
  {
    if n != 0 {
      ParseFormatRoundTrip(n);
    }
  }

  /** The outcome of reading the terminal number from the command line. */
  datatype TerminalArg = Parsed(terminalNo: int) | Unparsable(argument: string)

  /** GetTerminalNo(false) on the command-line arguments (args[0] is the program). */
  function ReadTerminalArg(args: seq<string>): (r: TerminalArg)
    ensures r.Parsed? ==> InInt32(r.terminalNo)
    ensures |args| < 2 ==> r == Parsed(0)
    ensures r.Unparsable? ==> |args| >= 2 && r.argument == args[1] && ParseInt(args[1]).None?
    ensures |args| >= 2 ==> (r.Unparsable? <==> ParseInt(args[1]).None?)
    ensures |args| >= 2 && r.Parsed? ==> ParseInt(args[1]) == Some(r.terminalNo)
  {
    if |args| < 2 then Parsed(0)
    else match ParseInt(args[1])
      case Some(n) => Parsed(n)
      case None => Unparsable(args[1])
  }

  /** A command line whose first argument is the text of a terminal number gives that number. */
  lemma ReadTerminalArgRoundTrip(program: string, rest: seq<string>, n: int)
    requires InInt32(n)
    ensures ReadTerminalArg([program, IntToString(n)] + rest) == Parsed(n)
  {
    ParseFormatRoundTrip(n);
    assert ([program, IntToString(n)] + rest)[1] == IntToString(n);
  }

  /** A first argument that is empty, or holds a character other than a digit
      after its first one, is not a terminal number: it is named in the error. */
  lemma NonIntegerArgumentRejected(program: string, argument: string, rest: seq<string>, i: nat)
    requires argument == [] || (1 <= i < |argument| && !IsDigit(argument[i]))
    ensures ReadTerminalArg([program, argument] + rest) == Unparsable(argument)
  {
    assert ([program, argument] + rest)[1] == argument;
  }

  const MissingTerminalText: string := " cannot initialize: CommandLine contains no TerminalNo argument. Program will shutdown."

  const MissingTerminalHint: string := " ?\r\nUse ex. 'MwwmWpfTemplate.exe 21' in the program shortcut"

  /** The ApplicationException thrown when a terminal number is demanded and
      missing: the parse-error text and a usage hint. */
  function MissingTerminalError(): (e: Exn)
    ensures e.inner.None?
    ensures |e.message| == |TerminalNoParseError| + |MissingTerminalHint|
    ensures e.message[..|TerminalNoParseError|] == TerminalNoParseError
    ensures e.message[|TerminalNoParseError|..] == MissingTerminalHint
  {
    Exn(TerminalNoParseError + MissingTerminalHint, "", None)
  }

  /** The ApplicationException thrown for an argument that is not an integer:
      the parse-error text, then the argument. */
  function ParseError(argument: string): (e: Exn)
    ensures e.inner.None?
    ensures |e.message| == |TerminalNoParseError| + 1 + |argument|
    ensures e.message[..|TerminalNoParseError|] == TerminalNoParseError
    ensures e.message[|TerminalNoParseError| + 1..] == argument
  {
    Exn(TerminalNoParseError + " " + argument, "", None)
  }

  /** The view shown after ChangeView(view). */
  function Navigate(current: Option<Screen>, view: Option<Screen>): (next: Option<Screen>)
    ensures view.Some? ==> next == view
    ensures view.None? ==> next == current
  {
    if view.None? || view == current then current else view
  }

  /** The notices ChangeView(view) raises: one CurrentControl change, and only
      when the view differs from the current one. */
  function NavigationNotices(current: Option<Screen>, view: Option<Screen>): (ns: seq<PropertyNotice>)
    ensures ns == [] <==> view.None? || view == current
    ensures ns != [] ==> ns == [InstanceChanged("CurrentControl"), StaticChanged("CurrentControl")]
  {
    if view.None? || view == current then [] else ChangeNotices(current, view, "CurrentControl")
  }

  /** ChangeView is idempotent: a second call with the same view keeps the
      view and raises no notice. */
  lemma ChangeViewIdempotent(current: Option<Screen>, view: Option<Screen>)
    ensures Navigate(Navigate(current, view), view) == Navigate(current, view)
    ensures NavigationNotices(Navigate(current, view), view) == []
  {
  }

  /** The effects of a child getter: creation and initialization when the field was null. */
  function CreationEffects(existing: bool, child: Screen): seq<Effect> {
    if existing then [] else [ChildCreated(child), ChildInitialized(child)]
  }

  /** The event Log(() => text) raises: default logger name, level Debug, no exception. */
  function DebugEvent(sender: object, text: string): Raised {
    Raised(sender, BLL.LogEvent("", BLL.Level.Debug, BLL.Returns(Some(text)), None))
  }

  /** The events logged by a successful startup for terminal n. */
  function StartupEvents(sender: object, n: int): seq<Raised> {
    [DebugEvent(sender, Banner), DebugEvent(sender, Title(n) + StartingText), DebugEvent(sender, Banner),
     DebugEvent(sender, InitializingText), DebugEvent(sender, InitializedText)]
  }

  /** The event logged when startup fails with exception e. */
  function FailureEvent(sender: object, e: Exn): Raised {
    Raised(sender, BLL.LogEvent("", BLL.Level.Error, BLL.Returns(Some(FailedText + e.message)), Some(e)))
  }

  class MainWindowViewModel {
    const base: ViewModelBase
    var currentControl: Option<Screen>
    var terminalNo: int
    var splash: Option<Splash>
    var mainView: bool                // _mainView != null
    var featureView: bool             // _featureView != null
    var mainVm: ViewModelBase?
    var featureVm: ViewModelBase?
    var effects: seq<Effect>

    ghost predicate Valid()
      reads this
    {
      && mainVm != base && featureVm != base
      && (mainVm != null ==> mainVm != featureVm)
      && (featureView ==> featureVm != null)
      && InInt32(terminalNo)
    }

    constructor ()
      ensures Valid() && fresh(base)
      ensures !base.disposed && base.notices == [] && !base.logSubscribed && base.raised == []
      ensures currentControl == None && terminalNo == 0 && splash == None
      ensures !mainView && !featureView && mainVm == null && featureVm == null && effects == []
    {
      base := new ViewModelBase();
      currentControl := None;
      terminalNo := 0;
      splash := None;
      mainView, featureView := false, false;
      mainVm, featureVm := null, null;
      effects := [];
    }

    /** ChangeView: nothing for a null view or the current one, otherwise the
        CurrentControl setter. */
    method ChangeView(view: Option<Screen>)
      modifies this`currentControl, base`notices
      ensures currentControl == Navigate(old(currentControl), view)
      ensures base.notices == old(base.notices) + NavigationNotices(old(currentControl), view)
    {
      if view.None? || view == currentControl {
        return;
      }
      var changed, stored := base.SetProperty(currentControl, view, "CurrentControl");
      currentControl := stored;
    }

    /** The MainViewViewModel getter: create, subscribe to and initialize the
        child once while the field is null; return the cached child. */
    method MainViewViewModel() returns (vm: ViewModelBase)
      requires Valid()
      modifies this`mainVm, this`effects
      ensures Valid() && mainVm == vm
      ensures old(mainVm) != null ==> vm == old(mainVm)
      ensures old(mainVm) == null ==> fresh(vm) && vm.logSubscribed && !vm.disposed
      ensures effects == old(effects) + CreationEffects(old(mainVm) != null, Main)
    {
      if mainVm == null {
        var child := new ViewModelBase();
        child.SubscribeLog();
        effects := effects + [ChildCreated(Main)];
        child.Initialize();
        effects := effects + [ChildInitialized(Main)];
        mainVm := child;
      }
      vm := mainVm;
    }

    /** The FeatureViewViewModel getter, like MainViewViewModel. */
    method FeatureViewViewModel() returns (vm: ViewModelBase)
      requires Valid()
      modifies this`featureVm, this`effects
      ensures Valid() && featureVm == vm
      ensures old(featureVm) != null ==> vm == old(featureVm)
      ensures old(featureVm) == null ==> fresh(vm) && vm.logSubscribed && !vm.disposed
      ensures effects == old(effects) + CreationEffects(old(featureVm) != null, Feature)
    {
      if featureVm == null {
        var child := new ViewModelBase();
        child.SubscribeLog();
        effects := effects + [ChildCreated(Feature)];
        child.Initialize();
        effects := effects + [ChildInitialized(Feature)];
        featureVm := child;
      }
      vm := featureVm;
    }

    /** The MainView getter: the view is created once, asking for its view-model. */
    method MainView() returns (v: Screen)
      requires Valid()
      modifies this`mainView, this`mainVm, this`effects
      ensures Valid() && v == Main && mainView
      ensures old(mainView) ==> mainVm == old(mainVm) && effects == old(effects)
      ensures !old(mainView) ==> mainVm != null && (old(mainVm) != null ==> mainVm == old(mainVm))
      ensures effects == old(effects) + CreationEffects(old(mainView) || old(mainVm) != null, Main)
    {
      if !mainView {
        var vm := MainViewViewModel();
        mainView := true;
      }
      v := Main;
    }

    /** The FeatureView getter. */
    method FeatureView() returns (v: Screen)
      requires Valid()
      modifies this`featureView, this`featureVm, this`effects
      ensures Valid() && v == Feature && featureView
      ensures old(featureView) ==> featureVm == old(featureVm) && effects == old(effects)
      ensures !old(featureView) ==> featureVm != null && (old(featureVm) != null ==> featureVm == old(featureVm))
      ensures effects == old(effects) + CreationEffects(old(featureView) || old(featureVm) != null, Feature)
    {
      if !featureView {
        var vm := FeatureViewViewModel();
        featureView := true;
      }
      v := Feature;
    }

    /** DisplayFeatureViewAction, given to the main child: ChangeView(FeatureView). */
    method DisplayFeatureView()
      requires Valid()
      modifies this`featureView, this`featureVm, this`effects, this`currentControl, base`notices
      ensures Valid() && currentControl == Some(Feature) && featureView && featureVm != null
      ensures old(featureView) || old(featureVm) != null ==> featureVm == old(featureVm)
      ensures base.notices == old(base.notices) + NavigationNotices(old(currentControl), Some(Feature))
      ensures effects == old(effects) + CreationEffects(old(featureView) || old(featureVm) != null, Feature)
    {
      var v := FeatureView();
      ChangeView(Some(v));
    }

    /** ReturnAction, given to the feature child: ChangeView(MainView). */
    method ReturnToMainView()
      requires Valid()
      modifies this`mainView, this`mainVm, this`effects, this`currentControl, base`notices
      ensures Valid() && currentControl == Some(Main) && mainView
      ensures old(mainView) || old(mainVm) != null ==> mainVm == old(mainVm)
      ensures !old(mainView) ==> mainVm != null
      ensures base.notices == old(base.notices) + NavigationNotices(old(currentControl), Some(Main))
      ensures effects == old(effects) + CreationEffects(old(mainView) || old(mainVm) != null, Main)
    {
      var v := MainView();
      ChangeView(Some(v));
    }

    /** GetTerminalNo(throwIfNotFound): the terminal number from the first
        argument, 0 without one; the exception it throws, if any. A failed
        int.TryParse leaves 0 in the field. */
    method GetTerminalNo(throwIfNotFound: bool, args: seq<string>) returns (thrown: Option<Exn>)
      requires Valid()
      modifies this`terminalNo, base`notices, base`raised
      ensures Valid()
      ensures |args| < 2 ==> terminalNo == 0 && base.notices == old(base.notices) + ChangeNotices(old(terminalNo), 0, "TerminalNo")
      ensures |args| < 2 && !throwIfNotFound ==> thrown == None && base.raised == old(base.raised)
      ensures |args| < 2 && throwIfNotFound ==>
                && thrown == Some(MissingTerminalError())
                && base.raised == old(base.raised) + (if base.logSubscribed
                                                      then [Raised(base, BLL.LogEvent("", BLL.Level.Error, BLL.Returns(Some(Title(0) + MissingTerminalText)), None))]
                                                      else [])
      ensures |args| >= 2 ==> base.notices == old(base.notices) && base.raised == old(base.raised)
      ensures |args| >= 2 ==> match ReadTerminalArg(args)
                               case Parsed(n) => terminalNo == n && thrown == None
                               case Unparsable(a) => terminalNo == 0 && thrown == Some(ParseError(a))
    {
      thrown := None;
      if |args| < 2 {
        var changed, stored := base.SetProperty(terminalNo, 0, "TerminalNo");
        terminalNo := stored;
        if throwIfNotFound {
          base.Log(BLL.Returns(Some(Title(terminalNo) + MissingTerminalText)), BLL.Level.Error);
          thrown := Some(MissingTerminalError());
        }
      } else {
        match ReadTerminalArg(args) {
          case Parsed(n) =>
            terminalNo := n;
          case Unparsable(a) =>
            terminalNo := 0;
            thrown := Some(ParseError(a));
        }
      }
    }

    /** DisplaySplashScreen: a modeless splash without a close button, or the
        modal about box with one, which is closed when ShowDialog returns. */
    method DisplaySplashScreen(closeButton: bool, status: string)
      modifies this`splash, this`effects
      ensures splash == Some(Splash(status, closeButton, !closeButton))
      ensures effects == old(effects) + [SplashShown(status, closeButton)] + (if closeButton then [SplashClosed] else [])
    {
      splash := Some(Splash(status, closeButton, true));
      effects := effects + [SplashShown(status, closeButton)];
      if closeButton {
        splash := Some(Splash(status, closeButton, false));
        effects := effects + [SplashClosed];
      }
    }

    /** splash.StatusText = status. */
    method SetSplashStatus(status: string)
      requires splash.Some?
      modifies this`splash, this`effects
      ensures splash == Some(old(splash).value.(status := status))
      ensures effects == old(effects) + [SplashStatus(status)]
    {
      splash := Some(splash.value.(status := status));
      effects := effects + [SplashStatus(status)];
    }

    /** RemoveSplashScreen: closes the splash window held in the field, if any;
        the field keeps the closed window. */
    method RemoveSplashScreen()
      modifies this`splash, this`effects
      ensures old(splash).Some? ==> splash == Some(old(splash).value.(open := false)) && effects == old(effects) + [SplashClosed]
      ensures old(splash).None? ==> splash == None && effects == old(effects)
    {
      if splash.Some? {
        splash := Some(splash.value.(open := false));
        effects := effects + [SplashClosed];
      }
    }

    /** HandleShowAbout: the about box. */
    method HandleShowAbout()
      modifies this`splash, this`effects
      ensures splash == Some(Splash("", true, false))
      ensures effects == old(effects) + [SplashShown("", true), SplashClosed]
    {
      DisplaySplashScreen(true, "");
    }

    /** The body of Initialize's try block after the terminal number was read. */
    method StartUp()
      requires Valid()
      modifies this`splash, this`effects, this`mainView, this`mainVm, this`currentControl, base`notices, base`raised
      ensures Valid() && currentControl == Some(Main) && mainView
      ensures old(mainView) || old(mainVm) != null ==> mainVm == old(mainVm)
      ensures !old(mainView) ==> mainVm != null
      ensures splash == Some(Splash(HardwareStatus, false, true))
      ensures base.raised == old(base.raised) + (if base.logSubscribed then StartupEvents(base, terminalNo) else [])
      ensures base.notices == old(base.notices) + NavigationNotices(old(currentControl), Some(Main))
      ensures effects == old(effects)
                         + [SplashShown(InitializingStatus, false), SplashStatus(LoadingStatus), SplashStatus(HardwareStatus)]
                         + CreationEffects(old(mainView) || old(mainVm) != null, Main)
    {
      ghost var evs := StartupEvents(base, terminalNo);
      LogStartupBanner();
      ShowStartupSplash();
      var v := MainView();
      ChangeView(Some(v));
      base.Log(BLL.Returns(Some(InitializedText)));
      assert evs == evs[..4] + [evs[4]];
    }

    /** The four log lines that open the startup. */
    method LogStartupBanner()
      modifies base`raised
      ensures base.raised == old(base.raised) + (if base.logSubscribed then StartupEvents(base, terminalNo)[..4] else [])
    {
      base.Log(BLL.Returns(Some(Banner)));
      base.Log(BLL.Returns(Some(Title(terminalNo) + StartingText)));
      base.Log(BLL.Returns(Some(Banner)));
      base.Log(BLL.Returns(Some(InitializingText)));
    }

    /** The splash screen shown during startup, with its two status updates. */
    method ShowStartupSplash()
      modifies this`splash, this`effects
      ensures splash == Some(Splash(HardwareStatus, false, true))
      ensures effects == old(effects) + [SplashShown(InitializingStatus, false), SplashStatus(LoadingStatus), SplashStatus(HardwareStatus)]
    {
      DisplaySplashScreen(false, InitializingStatus);
      SetSplashStatus(LoadingStatus);
      SetSplashStatus(HardwareStatus);
    }

    /** The catch block of Initialize: log at Error with the exception, show
        the setup error and end the application with exit code -1. */
    method StartupFailed(e: Exn)
      modifies this`effects, base`raised
      ensures base.raised == old(base.raised) + (if base.logSubscribed then [FailureEvent(base, e)] else [])
      ensures effects == old(effects) + [SetupErrorNotice(e.message), Shutdown(-1)]
    {
      base.Log(BLL.Returns(Some(FailedText + e.message)), BLL.Level.Error, Some(e));
      effects := effects + [SetupErrorNotice(e.message)];
      effects := effects + [Shutdown(-1)];
    }

    /** Initialize: the single-instance test, then startup under
        try/catch/finally. `alreadyRunning` is the outcome of the named-mutex test. */
    method Initialize(alreadyRunning: bool, args: seq<string>)
      requires Valid()
      modifies this`effects, this`terminalNo, this`splash, this`mainView, this`mainVm, this`currentControl
      modifies base`notices, base`raised
      ensures Valid()
      ensures alreadyRunning ==>
                && effects == old(effects) + [AlreadyRunningNotice, Shutdown(0)]
                && base.raised == old(base.raised) && base.notices == old(base.notices)
                && currentControl == old(currentControl) && terminalNo == old(terminalNo) && splash == old(splash)
                && mainVm == old(mainVm) && mainView == old(mainView)
      ensures !alreadyRunning ==> splash.None? || !splash.value.open
      ensures !alreadyRunning && ReadTerminalArg(args).Parsed? ==> splash == Some(Splash(HardwareStatus, false, false))
      ensures !alreadyRunning && ReadTerminalArg(args).Unparsable? ==>
                splash == if old(splash).Some? then Some(old(splash).value.(open := false)) else None
      ensures !alreadyRunning && ReadTerminalArg(args).Parsed? ==>
                var n := ReadTerminalArg(args).terminalNo;
                && terminalNo == n
                && currentControl == Some(Main) && mainView
                && (old(mainView) || old(mainVm) != null ==> mainVm == old(mainVm))
                && (!old(mainView) ==> mainVm != null)
                && base.raised == old(base.raised) + (if base.logSubscribed then StartupEvents(base, n) else [])
                && base.notices == old(base.notices)
                                   + (if |args| < 2 then ChangeNotices(old(terminalNo), 0, "TerminalNo") else [])
                                   + NavigationNotices(old(currentControl), Some(Main))
                && effects == old(effects)
                              + [SplashShown(InitializingStatus, false), SplashStatus(LoadingStatus), SplashStatus(HardwareStatus)]
                              + CreationEffects(old(mainView) || old(mainVm) != null, Main)
                              + [SplashClosed]
      ensures !alreadyRunning && ReadTerminalArg(args).Unparsable? ==>
                var e := ParseError(args[1]);
                && terminalNo == 0
                && currentControl == old(currentControl) && mainVm == old(mainVm) && mainView == old(mainView)
                && base.raised == old(base.raised) + (if base.logSubscribed then [FailureEvent(base, e)] else [])
                && base.notices == old(base.notices)
                && effects == old(effects) + [SetupErrorNotice(e.message), Shutdown(-1)]
                              + (if old(splash).Some? then [SplashClosed] else [])
    {
      if alreadyRunning {
        effects := effects + [AlreadyRunningNotice];
        effects := effects + [Shutdown(0)];
        return;
      }
      // try
      var caught := GetTerminalNo(false, args);
      if caught.None? {
        StartUp();
      } else {
        // catch
        StartupFailed(caught.value);
      }
      // finally
      RemoveSplashScreen();
    }

    /** PrepareShutdown: prepares, disposes and forgets the main child if it
        exists; the feature child is left alone. */
    method PrepareShutdown()
      requires Valid()
      modifies this`mainVm, this`effects, mainVm
      ensures Valid() && mainVm == null
      ensures old(mainVm) != null ==> old(mainVm).disposed && effects == old(effects) + [ChildPrepared(Main), ChildDisposed(Main)]
      ensures old(mainVm) == null ==> effects == old(effects)
      ensures old(mainVm) != null ==>
                && old(mainVm).notices == old(mainVm.notices) && old(mainVm).raised == old(mainVm.raised)
                && old(mainVm).logSubscribed == old(mainVm.logSubscribed)
    {
      if mainVm != null {
        mainVm.PrepareShutdown();
        effects := effects + [ChildPrepared(Main)];
        mainVm.Dispose();
        effects := effects + [ChildDisposed(Main)];
        mainVm := null;
      }
      base.PrepareShutdown();
    }

    /** HandleShutdown: asks for confirmation; only a Yes prepares the shutdown
        and ends the application with exit code 0. */
    method HandleShutdown(answer: Answer)
      requires Valid()
      modifies this`mainVm, this`effects, mainVm
      ensures Valid()
      ensures answer == No ==> mainVm == old(mainVm) && effects == old(effects) + [CloseConfirmation]
      ensures answer == No && old(mainVm) != null ==> unchanged(old(mainVm))
      ensures answer == Yes && old(mainVm) != null ==>
                && old(mainVm).notices == old(mainVm.notices) && old(mainVm).raised == old(mainVm.raised)
                && old(mainVm).logSubscribed == old(mainVm.logSubscribed)
      ensures answer == Yes ==>
                && mainVm == null
                && (old(mainVm) != null ==> old(mainVm).disposed)
                && effects == old(effects) + [CloseConfirmation]
                              + (if old(mainVm) != null then [ChildPrepared(Main), ChildDisposed(Main)] else [])
                              + [Shutdown(0)]
    {
      effects := effects + [CloseConfirmation];
      if answer != Yes {
        return;
      }
      PrepareShutdown();
      effects := effects + [Shutdown(0)];
    }

    /** Dispose(bool) override: the base class's Dispose. */
    method Dispose()
      modifies base`disposed
      ensures base.disposed
    {
      base.Dispose();
    }
  }
}
