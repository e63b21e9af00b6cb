# MwwmWpfTemplate core in Dafny

This project models the two parts of the MwwmWpfTemplate desktop skeleton that carry real logic:

- **The logging facade `LogController`** (module `BLL`). A log call does the following, in order:
  - it returns at once when logging is disabled;
  - it evaluates the lazy message producer, and a null or empty message suppresses the call;
  - it replaces a blank logger name with `DefaultLoggerName`;
  - it notifies the `OnLogMessage` subscribers;
  - it renders the message with the exception chain;
  - it routes the text to a named backend logger or to the generic fallback logger.

  Every failure inside the call degrades to the generic logger.
- **The view-model base `ViewModelBase`** (module `ViewModels`). It provides change-detecting `SetProperty`, the two-event `OnPropertyChanged`, the one-shot `Dispose` pattern and the `LogMessage` event.
- **The orchestrator `MainWindowViewModel`** (module `MainWindowModel`). It provides:
  - the single-instance guard and the phased startup under try/catch/finally;
  - idempotent view navigation and lazily created child view-models;
  - the confirm-then-cascade shutdown.

Supporting modules:
- `Exceptions`: an exception with its `InnerException` chain and `GetBaseException`.
- `NLogBackend`: the backend as the facade sees it. It holds the configured rule patterns and a per-name "enabled at level" predicate. Two oracles say what throws: one, per name, whether resolving or testing a named logger throws; the other, per name and level, whether its write throws, asked only at an enabled level. A `Write` records one backend call; the trace of writes is a field of `LogController`.
- `IntText`: the signed-decimal Int32 parser that stands in for `int.TryParse`, and `Int32.ToString`.

The process-wide statics of `LogController` are the fields of one `LogController` object, and its static constructor is the class constructor. `LogSpec` is a pure function that states what one canonical call does: whether the producer runs, what subscribers receive and what the backend gets. `LogController.LogMessage` is an imperative method that is proved equal to `LogSpec`. It reassigns the logger name and builds its text in a buffer, walking the exception chain in a loop (`RenderText`).

Dafny has no inheritance here, so `MainWindowViewModel` keeps its base-class state in the `ViewModelBase` object `base`. The child view-models are `ViewModelBase` objects as well. Effects outside the fields are appended to an `effects` trace:
- message boxes;
- the splash window being shown, updated and closed;
- child creation, initialization, preparation and disposal;
- `Application.Current.Shutdown(code)`.

## Model

| member | source | states |
|---|---|---|
| Exceptions.Chain | MwwmWpfTemplate/MwwmWpfTemplate/BLL/LogController.cs:147-151 | the chain walked by the rendering loop starts with the outer exception |
| Exceptions.ChainOf | MwwmWpfTemplate/MwwmWpfTemplate/BLL/LogController.cs:140-151 | a null exception has an empty chain and only a null one |
| Exceptions.BaseException | MwwmWpfTemplate/MwwmWpfTemplate/BLL/LogController.cs:142-143 | GetBaseException is an exception of the chain and has no inner exception |
| Exceptions.BaseExceptionEndsChain | MwwmWpfTemplate/MwwmWpfTemplate/BLL/LogController.cs:142-143 | GetBaseException is the last element of the chain and has no inner exception |
| IntText.ParseInt | MwwmWpfTemplate/MwwmWpfTemplate/ViewModels/MainWindowViewModel.cs:250 | a successful parse needs an optional sign and then only digits, at least one; its value is the signed digit value and lies in Int32; a digit string, bare or after a sign, whose signed value fits in Int32 always parses to that value |
| IntText.IntToString | MwwmWpfTemplate/MwwmWpfTemplate/ViewModels/MainWindowViewModel.cs:137 | the text of a number is a sign or digit followed by digits, with no leading zero except for 0 itself |
| IntText.ParseFormatRoundTrip | MwwmWpfTemplate/MwwmWpfTemplate/ViewModels/MainWindowViewModel.cs:137 | parsing the text of any Int32 gives the same value back |
| BLL.ToNlogLevel | MwwmWpfTemplate/MwwmWpfTemplate/BLL/LogController.cs:213-222 | Off, and only Off, maps to NLog Off; every other level maps to the NLog level of the same name, whose ordinal is one lower |
| BLL.ToNlogLevelPreservesOrder | MwwmWpfTemplate/MwwmWpfTemplate/BLL/LogController.cs:213-222 | on levels that log, the mapping preserves the order and is injective |
| BLL.EffectiveLoggerName | MwwmWpfTemplate/MwwmWpfTemplate/BLL/LogController.cs:131 | a blank name is replaced by the default name, and any other name is kept |
| BLL.FirstRule | MwwmWpfTemplate/MwwmWpfTemplate/BLL/LogController.cs:166 | the first rule whose pattern equals the name is found, and none is found iff no rule matches |
| BLL.IsBlank | MwwmWpfTemplate/MwwmWpfTemplate/BLL/LogController.cs:131 | a string is blank iff every character is white space; the empty string is blank |
| BLL.LogController.IsLoggerNameInUse | MwwmWpfTemplate/MwwmWpfTemplate/BLL/LogController.cs:162-168 | true iff some rule pattern equals the name, with the default name standing in for a blank one |
| BLL.TrimEndCrLf | MwwmWpfTemplate/MwwmWpfTemplate/BLL/LogController.cs:154 | the result is the longest prefix obtained by removing only trailing CR and LF |
| BLL.TrimEndUnique | MwwmWpfTemplate/MwwmWpfTemplate/BLL/LogController.cs:154 | any prefix that does not end in CR/LF and leaves only CR/LF behind is the trimmed text |
| BLL.ChainLines | MwwmWpfTemplate/MwwmWpfTemplate/BLL/LogController.cs:147-151 | the chain section is empty iff the chain is; otherwise it starts with a tab and ends with a line terminator, at least three characters per exception |
| BLL.WithExceptionHeader | MwwmWpfTemplate/MwwmWpfTemplate/BLL/LogController.cs:140-146 | the header lines extend the buffer and end with the "Inner exception messages:" line |
| BLL.Layout | MwwmWpfTemplate/MwwmWpfTemplate/BLL/LogController.cs:137-152 | the buffer opens with the message line and always ends with a line terminator, which trimming removes |
| BLL.BackendText | MwwmWpfTemplate/MwwmWpfTemplate/BLL/LogController.cs:137-154 | the text handed to the backend is a prefix of the buffer that does not end in CR/LF; without an exception it is a prefix of the message |
| BLL.RenderText | MwwmWpfTemplate/MwwmWpfTemplate/BLL/LogController.cs:137-154 | the buffer built by the chain-walking loop, once trimmed, is the backend text of the layout |
| BLL.PlainMessageText | MwwmWpfTemplate/MwwmWpfTemplate/BLL/LogController.cs:138 | without an exception the backend text is the message with its trailing CR/LF removed |
| BLL.ExceptionMessageText | MwwmWpfTemplate/MwwmWpfTemplate/BLL/LogController.cs:137-154 | with an exception the text is the message line, then the header lines, then the chain lines; only the terminator of the last chain line is trimmed |
| BLL.ChainLinesTabs | MwwmWpfTemplate/MwwmWpfTemplate/BLL/LogController.cs:147-151 | the chain section holds one tab per chained exception plus the tabs inside the messages |
| BLL.TabLinePerChainedException | MwwmWpfTemplate/MwwmWpfTemplate/BLL/LogController.cs:147-154 | after trimming, the chain section still holds one tab per chained exception plus the tabs inside the messages, so exactly one per exception for tab-free messages |
| BLL.Suppressed | MwwmWpfTemplate/MwwmWpfTemplate/BLL/LogController.cs:129 | a null or empty message suppresses the call; a non-empty message or a throwing producer does not |
| BLL.GenericWrites | MwwmWpfTemplate/MwwmWpfTemplate/BLL/LogController.cs:201-208 | nothing while logging is disabled; otherwise exactly one generic write with the given level, text and error |
| BLL.Route | MwwmWpfTemplate/MwwmWpfTemplate/BLL/LogController.cs:178-195 | see routing below |
| NLogBackend.Fault | MwwmWpfTemplate/MwwmWpfTemplate/BLL/LogController.cs:184-193 | resolving the named logger fails first; otherwise the write can fail only when the logger is enabled at the level |
| BLL.DisabledLoggerNeverWrites | MwwmWpfTemplate/MwwmWpfTemplate/BLL/LogController.cs:186-187 | a resolvable named logger that is not enabled at the level receives nothing, even when its write method would throw |
| BLL.LogSpec | MwwmWpfTemplate/MwwmWpfTemplate/BLL/LogController.cs:121-160 | see the canonical call below |
| BLL.Deliver | MwwmWpfTemplate/MwwmWpfTemplate/BLL/LogController.cs:131-158 | see delivery below |
| BLL.DefaultNameRoutesPlainMessage | MwwmWpfTemplate/MwwmWpfTemplate/BLL/LogController.cs:128-154 | see the default-name case below |
| BLL.NamedExceptionWrite | MwwmWpfTemplate/MwwmWpfTemplate/BLL/LogController.cs:137-154 | see the exception case below |
| BLL.LogController.constructor | MwwmWpfTemplate/MwwmWpfTemplate/BLL/LogController.cs:76-79 | logging starts enabled with an empty default name, no subscribers and no generic logger |
| BLL.LogController.Subscribe | MwwmWpfTemplate/MwwmWpfTemplate/BLL/LogController.cs:86 | after a subscription, OnLogMessage has subscribers |
| BLL.LogController.GenericLogger | MwwmWpfTemplate/MwwmWpfTemplate/BLL/LogController.cs:56-67 | the generic logger exists after it is first asked for |
| BLL.LogController.UseGenericLogger | MwwmWpfTemplate/MwwmWpfTemplate/BLL/LogController.cs:201-208 | it writes nothing while disabled; otherwise it makes one generic write with the given error |
| BLL.LogController.LogMessageInternal | MwwmWpfTemplate/MwwmWpfTemplate/BLL/LogController.cs:178-195 | the writes are exactly those of Route |
| BLL.LogController.DeliverMessage | MwwmWpfTemplate/MwwmWpfTemplate/BLL/LogController.cs:131-158 | the notifications and writes are exactly those of Deliver |
| BLL.LogController.LogMessage | MwwmWpfTemplate/MwwmWpfTemplate/BLL/LogController.cs:121-160 | see the canonical method below |
| BLL.LogController.LogDefault | MwwmWpfTemplate/MwwmWpfTemplate/BLL/LogController.cs:100-103 | this is the canonical call with an empty logger name, including whether the generic logger gets created |
| BLL.LogController.LogArgs | MwwmWpfTemplate/MwwmWpfTemplate/BLL/LogController.cs:107-111 | null arguments change nothing; otherwise the canonical call runs with the arguments' fields |
| ViewModels.ChangeNotices | MwwmWpfTemplate/MwwmWpfTemplate/ViewModels/ViewModelBase.cs:62-70 | no notice for an equal value; otherwise the instance notice then the static notice for the name |
| ViewModels.SetPropertyTwiceNotifiesOnce | MwwmWpfTemplate/MwwmWpfTemplate/ViewModels/ViewModelBase.cs:62-70 | a second SetProperty with the same value adds no notice |
| ViewModels.ViewModelBase.constructor | MwwmWpfTemplate/MwwmWpfTemplate/ViewModels/ViewModelBase.cs:10-11 | a new view-model is not disposed, has raised nothing and has no subscribers |
| ViewModels.ViewModelBase.Initialize | MwwmWpfTemplate/MwwmWpfTemplate/ViewModels/ViewModelBase.cs:15-17 | the default Initialize changes no state |
| ViewModels.ViewModelBase.PrepareShutdown | MwwmWpfTemplate/MwwmWpfTemplate/ViewModels/ViewModelBase.cs:22-24 | the default PrepareShutdown changes no state |
| ViewModels.ViewModelBase.SubscribeLog | MwwmWpfTemplate/MwwmWpfTemplate/ViewModels/ViewModelBase.cs:46 | after a subscription, LogMessage has subscribers |
| ViewModels.ViewModelBase.LogFrom | MwwmWpfTemplate/MwwmWpfTemplate/ViewModels/ViewModelBase.cs:38-41 | the event is raised with the given sender only when there are subscribers |
| ViewModels.ViewModelBase.LogArgs | MwwmWpfTemplate/MwwmWpfTemplate/ViewModels/ViewModelBase.cs:33-36 | the event is raised with this view-model as sender |
| ViewModels.ViewModelBase.Log | MwwmWpfTemplate/MwwmWpfTemplate/ViewModels/ViewModelBase.cs:28-31 | the event has logger name "", the given level (Debug by default), producer and error, and this view-model as sender; nothing happens without subscribers |
| ViewModels.ViewModelBase.OnPropertyChanged | MwwmWpfTemplate/MwwmWpfTemplate/ViewModels/ViewModelBase.cs:73-77 | the instance event is raised before the static event, with the same name |
| ViewModels.ViewModelBase.SetProperty | MwwmWpfTemplate/MwwmWpfTemplate/ViewModels/ViewModelBase.cs:62-70 | it returns true iff the value differs; it stores the value and raises exactly the notices of ChangeNotices |
| ViewModels.ViewModelBase.Dispose | MwwmWpfTemplate/MwwmWpfTemplate/ViewModels/ViewModelBase.cs:83-87 | the view-model is disposed afterwards |
| ViewModels.ViewModelBase.DisposeCore | MwwmWpfTemplate/MwwmWpfTemplate/ViewModels/ViewModelBase.cs:96-107 | the flag becomes true; on an already-disposed view-model nothing changes |
| MainWindowModel.TerminalText | MwwmWpfTemplate/MwwmWpfTemplate/ViewModels/MainWindowViewModel.cs:136-137 | the terminal part reads "Unspecified" iff the terminal is 0; otherwise it is a signed number |
| MainWindowModel.Title | MwwmWpfTemplate/MwwmWpfTemplate/ViewModels/MainWindowViewModel.cs:136-137 | the title kept is "(Terminal: ", the terminal part, then ")", so the terminal part reads back from it |
| MainWindowModel.TerminalTextReadsBack | MwwmWpfTemplate/MwwmWpfTemplate/ViewModels/MainWindowViewModel.cs:136-137 | the title reads "Unspecified" iff the terminal is 0; otherwise it reads back as the number |
| MainWindowModel.ReadTerminalArg | MwwmWpfTemplate/MwwmWpfTemplate/ViewModels/MainWindowViewModel.cs:235-253 | see reading the terminal number below |
| MainWindowModel.ReadTerminalArgRoundTrip | MwwmWpfTemplate/MwwmWpfTemplate/ViewModels/MainWindowViewModel.cs:249-251 | a first argument that is the text of an Int32 gives that terminal number |
| MainWindowModel.NonIntegerArgumentRejected | MwwmWpfTemplate/MwwmWpfTemplate/ViewModels/MainWindowViewModel.cs:249-251 | an empty first argument, or one with a non-digit after its first character, is rejected and named in the error |
| MainWindowModel.MissingTerminalError | MwwmWpfTemplate/MwwmWpfTemplate/ViewModels/MainWindowViewModel.cs:244 | the exception has no inner exception; its message is the parse-error text followed by the usage hint |
| MainWindowModel.ParseError | MwwmWpfTemplate/MwwmWpfTemplate/ViewModels/MainWindowViewModel.cs:251 | the exception has no inner exception; its message is the parse-error text, a space and the rejected argument |
| MainWindowModel.Navigate | MwwmWpfTemplate/MwwmWpfTemplate/ViewModels/MainWindowViewModel.cs:223-227 | a null view keeps the current one; any other view becomes current |
| MainWindowModel.NavigationNotices | MwwmWpfTemplate/MwwmWpfTemplate/ViewModels/MainWindowViewModel.cs:223-227 | one CurrentControl notice, and only when the view is non-null and differs from the current one |
| MainWindowModel.ChangeViewIdempotent | MwwmWpfTemplate/MwwmWpfTemplate/ViewModels/MainWindowViewModel.cs:223-227 | a second ChangeView with the same view keeps the view and raises nothing |
| MainWindowModel.MainWindowViewModel.constructor | MwwmWpfTemplate/MwwmWpfTemplate/ViewModels/MainWindowViewModel.cs:20-36 | a new orchestrator shows no view, has terminal 0 and no children, and has recorded no effects |
| MainWindowModel.MainWindowViewModel.ChangeView | MwwmWpfTemplate/MwwmWpfTemplate/ViewModels/MainWindowViewModel.cs:223-227 | the new current view is Navigate's, and the notices are NavigationNotices' |
| MainWindowModel.MainWindowViewModel.MainViewViewModel | MwwmWpfTemplate/MwwmWpfTemplate/ViewModels/MainWindowViewModel.cs:148-160 | see the child getters below |
| MainWindowModel.MainWindowViewModel.FeatureViewViewModel | MwwmWpfTemplate/MwwmWpfTemplate/ViewModels/MainWindowViewModel.cs:163-175 | the same as MainViewViewModel, for the feature child |
| MainWindowModel.MainWindowViewModel.MainView | MwwmWpfTemplate/MwwmWpfTemplate/ViewModels/MainWindowViewModel.cs:146 | the main view is made once, asking for its view-model only then |
| MainWindowModel.MainWindowViewModel.FeatureView | MwwmWpfTemplate/MwwmWpfTemplate/ViewModels/MainWindowViewModel.cs:161 | the feature view is made once, asking for its view-model only then |
| MainWindowModel.MainWindowViewModel.DisplayFeatureView | MwwmWpfTemplate/MwwmWpfTemplate/ViewModels/MainWindowViewModel.cs:155 | the feature view becomes current and exists, with its view-model, created once and kept afterwards; at most one notice; only the view fields, the feature child, the effects and the notices change |
| MainWindowModel.MainWindowViewModel.ReturnToMainView | MwwmWpfTemplate/MwwmWpfTemplate/ViewModels/MainWindowViewModel.cs:170 | the main view becomes current and exists, and an existing main child is kept; at most one notice; only the view fields, the main child, the effects and the notices change |
| MainWindowModel.MainWindowViewModel.GetTerminalNo | MwwmWpfTemplate/MwwmWpfTemplate/ViewModels/MainWindowViewModel.cs:235-253 | see GetTerminalNo below |
| MainWindowModel.MainWindowViewModel.DisplaySplashScreen | MwwmWpfTemplate/MwwmWpfTemplate/ViewModels/MainWindowViewModel.cs:195-212 | the modeless splash stays open; the modal about box is closed when ShowDialog returns |
| MainWindowModel.MainWindowViewModel.SetSplashStatus | MwwmWpfTemplate/MwwmWpfTemplate/ViewModels/MainWindowViewModel.cs:67-71 | the splash status text changes and nothing else about the splash |
| MainWindowModel.MainWindowViewModel.RemoveSplashScreen | MwwmWpfTemplate/MwwmWpfTemplate/ViewModels/MainWindowViewModel.cs:214-221 | a held splash is closed but stays in the field; without one nothing happens |
| MainWindowModel.MainWindowViewModel.HandleShowAbout | MwwmWpfTemplate/MwwmWpfTemplate/ViewModels/MainWindowViewModel.cs:187-190 | the modal about box is shown and then closed |
| MainWindowModel.MainWindowViewModel.LogStartupBanner | MwwmWpfTemplate/MwwmWpfTemplate/ViewModels/MainWindowViewModel.cs:58-61 | the four opening Debug log events |
| MainWindowModel.MainWindowViewModel.ShowStartupSplash | MwwmWpfTemplate/MwwmWpfTemplate/ViewModels/MainWindowViewModel.cs:63-71 | the splash is shown and then updated twice |
| MainWindowModel.MainWindowViewModel.StartUp | MwwmWpfTemplate/MwwmWpfTemplate/ViewModels/MainWindowViewModel.cs:56-76 | see startup below |
| MainWindowModel.MainWindowViewModel.StartupFailed | MwwmWpfTemplate/MwwmWpfTemplate/ViewModels/MainWindowViewModel.cs:78-83 | one Error-level log event carrying the exception is raised; the effects are the setup error box, then Shutdown(-1) |
| MainWindowModel.MainWindowViewModel.Initialize | MwwmWpfTemplate/MwwmWpfTemplate/ViewModels/MainWindowViewModel.cs:43-89 | see Initialize below |
| MainWindowModel.MainWindowViewModel.PrepareShutdown | MwwmWpfTemplate/MwwmWpfTemplate/ViewModels/MainWindowViewModel.cs:98-110 | see PrepareShutdown below |
| MainWindowModel.MainWindowViewModel.HandleShutdown | MwwmWpfTemplate/MwwmWpfTemplate/ViewModels/MainWindowViewModel.cs:112-120 | the question is asked; No changes nothing else, the main child included; Yes runs PrepareShutdown and then Shutdown(0) |
| MainWindowModel.MainWindowViewModel.Dispose | MwwmWpfTemplate/MwwmWpfTemplate/ViewModels/MainWindowViewModel.cs:259-262 | disposing the orchestrator disposes its base-class part |

Details for the rows marked "see below":

- **BLL.Route** (routing):
  - a blank name makes one generic write of the text;
  - a named logger is written iff resolving it does not throw, it is enabled at the mapped level, and its write does not throw; the write carries the text unchanged;
  - when resolving the logger, testing its level or writing to it at an enabled level throws, the call makes one generic write of "Logger failed trying to log this message: " + text + "\r\nLogger error: " + the error message.
- **BLL.Deliver** (delivery, after the producer returned a non-empty message and the name is settled):
  - subscribers, if any, receive the settled name, the level, the message and the exception;
  - when a subscriber throws, the backend receives only one generic write, "Failed to get logmassage " + the stack trace, with that exception attached;
  - otherwise the backend receives exactly the writes of Route for the rendered text.
- **BLL.LogSpec** (the canonical call):
  - the producer runs iff logging is enabled;
  - when logging is disabled, or the message is null or empty, nothing is notified or written;
  - a throwing producer makes exactly one generic write, "Failed to get logmassage " + its stack trace, with that exception attached;
  - otherwise subscribers receive the substituted name, the same level, the message and the original exception;
  - the writes are then exactly those of Deliver: the generic "Failed to get logmassage" write if a subscriber threw, otherwise Route's writes of the rendered text;
  - at most one notice and one write happen.
- **BLL.DefaultNameRoutesPlainMessage** (the default-name case): a plain message logged under a blank name reaches the default-named logger as the message with its trailing CR/LF removed, and subscribers see the default name.
- **BLL.NamedExceptionWrite** (the exception case): a logged exception reaches an enabled named logger as the message, the header lines, and one tab line per chained exception. Only the last line terminator is trimmed. The chain section's tabs are one per chained exception plus those inside the messages.
- **BLL.LogController.LogMessage** (the canonical method): the producer flag, the notifications and the writes are exactly those of LogSpec, and the generic logger is created iff it is written.
- **MainWindowModel.MainWindowViewModel.MainViewViewModel** (the child getters): while the field is null, the getter creates a child, subscribes to it and initializes it; otherwise it returns the same child with no effects.
- **MainWindowModel.ReadTerminalArg** (reading the terminal number): fewer than 2 arguments give 0. Otherwise args[1] is rejected, and named, iff it does not parse. An accepted argument gives exactly the parsed Int32.
- **MainWindowModel.MainWindowViewModel.GetTerminalNo**:
  - with no argument, TerminalNo is set to 0 through SetProperty, and an exception is thrown only when demanded;
  - with an argument, the parse result is written directly to the field, with 0 on failure, and a failure throws the parse error.
- **MainWindowModel.MainWindowViewModel.StartUp** (startup):
  - the five Debug log events are raised;
  - the splash is shown and updated twice;
  - the main view is created with its child view-model if it did not exist, and an existing main child is kept;
  - the main view becomes current;
  - the terminal number and the feature child do not change.
- **MainWindowModel.MainWindowViewModel.Initialize**:
  - when another instance runs, it shows the notice and calls Shutdown(0), with no logging, parsing, splash, navigation or child creation;
  - on a parse failure, a splash held from before is closed and kept, and otherwise there is none;
  - on success, the main view is current and exists, the splash shows "Connecting to hardware..." and is closed, and no shutdown happens;
  - on a parse failure, it logs at Error with the exception, shows the setup error and calls Shutdown(-1);
  - in both of the last two cases, the splash is closed last;
  - the feature child and the disposed flag never change.
- **MainWindowModel.MainWindowViewModel.PrepareShutdown**:
  - an existing main child is prepared, then disposed, then forgotten; its notices, log events and subscription are unchanged;
  - with no main child, nothing happens, so a second call touches nothing;
  - the feature child is never touched.
- **MainWindowModel.MainWindowViewModel.HandleShutdown**: the question is asked. Only Yes runs PrepareShutdown and then Shutdown(0). On No, neither the fields nor the main child change.

Two behaviours of the source are easy to overlook:
- a startup failure is logged at `Level.Error` (MwwmWpfTemplate/MwwmWpfTemplate/ViewModels/MainWindowViewModel.cs:80);
- shutdown prepares and disposes only the main child view-model, and the feature child is never prepared or disposed (MwwmWpfTemplate/MwwmWpfTemplate/ViewModels/MainWindowViewModel.cs:102-107).

## Left out

- The creation time `LogMessageEventArgs.Created` (wall-clock time) is not modelled.
- NLog itself is not modelled. Each of these is a field or parameter instead: the backend's rule patterns, its enabled-at-level answers, which named loggers throw when resolved or tested, and which throw when written at a level. Writes record the call made, not NLog's own level filtering.
- The generic logger is assumed never to throw, as NLog does not by default. If it did throw inside the catch, the exception would reach the caller, and the model does not cover that case.
- `LogManager.Configuration` being null is not modelled. Nor are null logger names or a null `DefaultLoggerName`: names are strings, and only the producer's result can be null.
- `OnLogMessage` is modelled as one flag saying whether it has subscribers. A subscriber's exception is a parameter. With several subscribers, the model does not capture that a throwing subscriber stops the later ones. It also does not capture subscribers that change `Enabled` during the call.
- The delegate type declarations and the `ILogEnabled` interface carry no behaviour and are not modelled.
- `int.TryParse` accepts leading and trailing white space and culture-specific signs. `IntText.ParseInt` accepts only an optional sign followed by decimal digits, within the Int32 range.
- The resource strings (`Resources.Title`, `SetupError`, `ProgramStops` and the others) and the assembly version are not part of this model. `Title` keeps only its terminal part, and `TerminalNoParseError` is a named placeholder for the resource text.
- The named OS mutex of `IsAlreadyRunning` is not modelled. Its answer is the input `alreadyRunning`.
- `MessageBox.Show`, `Application.Current.Shutdown` and the `SplashWindow` calls are recorded as effects. The answer to the close question is the input `answer`. `Shutdown` does not stop the method that calls it, as in the source.
- Exceptions from the window system inside Initialize's try block are not modelled. The only exception raised there is the terminal-number parse failure.
- The producers the view-models log are closures that the source evaluates when the facade runs them. The model records the string they produce when the event is raised. The facade's subscriber runs synchronously, so the strings are the same.
- The `SplashWindow` cross-thread `Dispatcher.Invoke` and `Process.Start` on its hyperlink are concurrency and external I/O, and are not modelled.
- `RelayCommand` and the `MenuCloseCommand`/`MenuAboutCommand` properties are not modelled. They forward to `HandleShutdown` and `HandleShowAbout`, which are modelled.
- `MainViewViewModel` and `FeatureViewViewModel` are modelled as plain `ViewModelBase` objects. Their `DisplayFeatureViewAction` and `ReturnAction` are the orchestrator methods `DisplayFeatureView` and `ReturnToMainView`. The window code-behind files are not modelled.
- The finalizer, `GC.SuppressFinalize` and the expression-tree `OnPropertyChanged<T>` overload are runtime features and are not modelled.
- The static `PropertyChangedEvent` is shared by all view-models in the source. In the model, each view-model's notice trace records what it raised on that event.
- The `sender` of events raised by `MainWindowViewModel` is its `base` object, which stands for the view-model itself.
- StartupFailed: log events and effects are recorded in two separate traces, so no contract orders the Error event before the setup error box. The same holds for every other log event relative to an effect.
- MissingTerminalError, ParseError: the thrown exception's stack trace is the empty string. The runtime's trace is not modelled.
- ViewModels.ViewModelBase.OnPropertyChanged records both notices even when no handler is attached. In the source, `?.Invoke` then raises nothing; the trace is what the events would carry.
- A `Level` value outside the seven named ones, made by an enum cast, cannot be represented. The source maps such values to `LogLevel.Off` (MwwmWpfTemplate/MwwmWpfTemplate/BLL/LogController.cs:221).
