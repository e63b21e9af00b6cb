/**
  The logging facade LogController: it shields the application from the
  backend logger. A log call is short-circuited when logging is disabled,
  evaluates the message producer, substitutes the default logger name for a
  blank one, notifies subscribers, renders the exception chain into the text
  and routes it to a named backend logger or to the generic fallback logger.
  No failure reaches the caller.

  The process-wide statics of the source (Enabled, DefaultLoggerName,
  OnLogMessage, the cached generic logger) are the fields of one
  LogController object. The pure function LogSpec states what one call does;
  the method LogMessage is proved to do exactly that.
 */
module BLL {
  import opened Wrappers
  import opened Exceptions
  import NLog = NLogBackend

  /** LogController.Level; the enum values run Off = 0 .. Fatal = 6. */
  datatype Level = Off | Trace | Debug | Info | Warn | Error | Fatal {
    function Ordinal(): nat {
      match this
      case Off => 0
      case Trace => 1
      case Debug => 2
      case Info => 3
      case Warn => 4
      case Error => 5
      case Fatal => 6
    }
  }

  /** What the Func<string> message producer does when invoked: it returns a
      string (None stands for null) or throws. */
  datatype Producer = Returns(value: Option<string>) | Throws(error: Exn)

  /** LogMessageEventArgs without its wall-clock creation time. */
  datatype LogEvent = LogEvent(loggerName: string, level: Level, message: Producer, error: Option<Exn>)

  /** ToNlogLevel: every level but Off maps to the NLog level of the same name,
      which sits one ordinal lower; Off, and nothing else, maps to NLog's Off. */
  function ToNlogLevel(level: Level): (r: NLog.LogLevel)
    ensures level == Off <==> r == NLog.Off
    ensures level != Off ==> r.Ordinal() == level.Ordinal() - 1
  {
    match level
    case Trace => NLog.Trace
    case Debug => NLog.Debug
    case Info => NLog.Info
    case Warn => NLog.Warn
    case Error => NLog.Error
    case Fatal => NLog.Fatal
    case Off => NLog.Off
  }

  /** For two levels that log, their order is the order of their NLog levels. */
  lemma ToNlogLevelPreservesOrder(a: Level, b: Level)
    requires a != Off && b != Off
    ensures a.Ordinal() <= b.Ordinal() <==> ToNlogLevel(a).Ordinal() <= ToNlogLevel(b).Ordinal()
    ensures ToNlogLevel(a) == ToNlogLevel(b) ==> a == b
  {
    assert ToNlogLevel(a).Ordinal() == a.Ordinal() - 1;
    assert ToNlogLevel(b).Ordinal() == b.Ordinal() - 1;
  }

  // ---------------------------------------------------------------------
  // Logger names

  /** char.IsWhiteSpace: the Unicode space separators, the line and paragraph
      separators, U+0009..U+000D and U+0085. */
  predicate IsWhiteSpace(c: char) {
    var n := c as int;
    (9 <= n <= 13) || n == 0x20 || n == 0x85 || n == 0xA0 || n == 0x1680
    || (0x2000 <= n <= 0x200A) || n == 0x2028 || n == 0x2029 || n == 0x202F
    || n == 0x205F || n == 0x3000
  }

  /** string.IsNullOrWhiteSpace, and equally IsNullOrEmpty(s) || s.Trim() == "". */
  predicate IsBlank(s: string)
    ensures s == "" ==> IsBlank(s)
    ensures IsBlank(s) <==> forall c :: c in s ==> IsWhiteSpace(c)
  {
    forall i :: 0 <= i < |s| ==> IsWhiteSpace(s[i])
  }

  /** The logger name a call uses: the default name replaces a blank one. */
  function EffectiveLoggerName(name: string, defaultName: string): (r: string)
    ensures IsBlank(name) ==> r == defaultName
    ensures !IsBlank(name) ==> r == name
  {
    if IsBlank(name) then defaultName else name
  }

  /** The index of the first configured rule whose pattern equals `name`
      (FirstOrDefault over LoggingRules). */
  function FirstRule(rules: seq<string>, name: string): (r: Option<nat>)
    ensures r.None? <==> name !in rules
    ensures r.Some? ==> r.value < |rules| && rules[r.value] == name && name !in rules[..r.value]
  {
    if rules == [] then None
    else if rules[0] == name then Some(0)
    else
      match FirstRule(rules[1..], name)
      case None => None
      case Some(i) =>
        assert rules[..i + 1] == [rules[0]] + rules[1..][..i];
        Some(i + 1)
  }

  // ---------------------------------------------------------------------
  // Rendering the log text

  const NewLine: string := "\r\n"

  /** StringBuilder.AppendLine: the text followed by the line terminator. */
  function Line(s: string): string {
    s + NewLine
  }

  /** Append("\t").AppendLine(message). */
  function TabLine(message: string): string {
    "\t" + Line(message)
  }

  /** One tab-prefixed line per exception of the chain, in chain order. */
  function ChainLines(chain: seq<Exn>): (r: string)
    ensures |r| >= 3 * |chain|
    ensures r == [] <==> chain == []
    ensures chain != [] ==> r[0] == '\t' && r[|r| - 2..] == NewLine
  {
    if chain == [] then "" else TabLine(chain[0].message) + ChainLines(chain[1..])
  }

  /** The buffer after the lines written before the chain are appended to
      `prefix`: the base exception's message twice, under "Exception: " and
      "Base exception message: ", then the stack trace. */
  function WithExceptionHeader(prefix: string, e: Exn): (r: string)
    ensures prefix <= r
    ensures |r| >= |prefix| + |HeaderEnd| && r[|r| - |HeaderEnd|..] == HeaderEnd
  {
    var b := BaseException(e).message;
    prefix + Line("Exception: ") + Line(b) + Line("Base exception message: ") + Line(b)
    + Line("Stacktrace:") + Line(e.stackTrace) + HeaderEnd
  }

  /** The last line written before the chain. */
  const HeaderEnd: string := Line("Inner exception messages:")

  /** The StringBuilder contents before trimming: it opens with the message
      line and ends with a line terminator. */
  function Layout(msg: string, ex: Option<Exn>): (r: string)
    ensures Line(msg) <= r
    ensures |r| >= 2 && r[|r| - 2..] == NewLine
  {
    match ex
    case None => Line(msg)
    case Some(e) => WithExceptionHeader(Line(msg), e) + ChainLines(Chain(e))
  }

  predicate IsCrLf(c: char) {
    c == '\r' || c == '\n'
  }

  /** TrimEnd('\r', '\n'): the longest prefix obtained by removing only
      trailing CR and LF characters. */
  function TrimEndCrLf(s: string): (r: string)
    ensures r <= s
    ensures r == [] || !IsCrLf(r[|r| - 1])
    ensures forall i :: |r| <= i < |s| ==> IsCrLf(s[i])
  {
    if s != [] && IsCrLf(s[|s| - 1]) then TrimEndCrLf(s[..|s| - 1]) else s
  }

  /** The text handed to the backend for message `msg` and exception `ex`. */
  function BackendText(msg: string, ex: Option<Exn>): (r: string)
    ensures r <= Layout(msg, ex)
    ensures r == [] || !IsCrLf(r[|r| - 1])
    ensures ex.None? ==> r <= msg
  {
    TrimEndCrLf(Layout(msg, ex))
  }

  /** Builds the log text as the source does, appending to a buffer and
      walking the InnerException chain in a loop. */
  method RenderText(msg: string, ex: Option<Exn>) returns (text: string)
    ensures text == BackendText(msg, ex)
  {
    var message := Line(msg);
    if ex.Some? {
      var b := BaseException(ex.value).message;
      message := message + Line("Exception: ") + Line(b) + Line("Base exception message: ") + Line(b);
      message := message + Line("Stacktrace:") + Line(ex.value.stackTrace) + HeaderEnd;
      var cur := ex;
      while cur.Some?
        invariant message + ChainLines(ChainOf(cur)) == Layout(msg, ex)
        decreases cur
      {
        message := message + TabLine(cur.value.message);
        cur := cur.value.inner;
      }
      assert message + ChainLines([]) == message;
    }
    text := TrimEndCrLf(message);
  }

  // ---------------------------------------------------------------------
  // Lemmas about trimming and the rendered text

  /** Any prefix of `s` that does not end in CR/LF and leaves only CR/LF
      behind is the trimmed text. */
  lemma {:induction false} TrimEndUnique(s: string, r: string)
    requires r <= s
    requires r == [] || !IsCrLf(r[|r| - 1])
    requires forall i :: |r| <= i < |s| ==> IsCrLf(s[i])
    ensures r == TrimEndCrLf(s)
    decreases |s|
  {
    if s != [] && IsCrLf(s[|s| - 1]) {
      assert |r| < |s|;
      TrimEndUnique(s[..|s| - 1], r);
    } else {
      assert |r| == |s|;
    }
  }

  /** Trailing CR/LF characters appended to a text do not survive trimming. */
  lemma TrimEndIgnoresCrLfSuffix(s: string, t: string)
    requires forall i :: 0 <= i < |t| ==> IsCrLf(t[i])
    ensures TrimEndCrLf(s + t) == TrimEndCrLf(s)
  {
    var r := TrimEndCrLf(s);
    forall i | |r| <= i < |s + t|
      ensures IsCrLf((s + t)[i])
    {
      if i >= |s| {
        assert (s + t)[i] == t[i - |s|];
      }
    }
    TrimEndUnique(s + t, r);
  }

  /** Trimming never reaches into a text before a suffix holding a character other than CR/LF. */
  lemma TrimEndKeepsPrefix(s: string, t: string, k: nat)
    requires k < |t| && !IsCrLf(t[k])
    ensures TrimEndCrLf(s + t) == s + TrimEndCrLf(t)
  {
    var u := TrimEndCrLf(t);
    assert k < |u|;
    forall i | |s + u| <= i < |s + t|
      ensures IsCrLf((s + t)[i])
    {
      assert (s + t)[i] == t[i - |s|];
    }
    assert (s + u)[|s + u| - 1] == u[|u| - 1];
    TrimEndUnique(s + t, s + u);
  }

  /** Without an exception the backend text is the message with its trailing
      CR/LF characters removed. */
  lemma PlainMessageText(msg: string)
    ensures BackendText(msg, None) == TrimEndCrLf(msg)
  {
    TrimEndIgnoresCrLfSuffix(msg, NewLine);
  }

  /** With an exception the backend text is the message line, the header lines
      with the base message and stack trace, and the chain lines, of which only
      the terminator of the last is trimmed. */
  lemma ExceptionMessageText(msg: string, e: Exn)
    ensures BackendText(msg, Some(e)) == WithExceptionHeader(Line(msg), e) + TrimEndCrLf(ChainLines(Chain(e)))
  {
    var lines := ChainLines(Chain(e));
    assert lines[0] == '\t';
    TrimEndKeepsPrefix(WithExceptionHeader(Line(msg), e), lines, 0);
  }

  /** The number of occurrences of `c` in `s`. */
  function Count(c: char, s: string): nat {
    if s == [] then 0 else (if s[0] == c then 1 else 0) + Count(c, s[1..])
  }

  lemma {:induction false} CountAppend(c: char, a: string, b: string)
    ensures Count(c, a + b) == Count(c, a) + Count(c, b)
  {
    if a == [] {
      assert a + b == b;
    } else {
      assert (a + b)[0] == a[0];
      assert (a + b)[1..] == a[1..] + b;
      CountAppend(c, a[1..], b);
    }
  }

  lemma {:induction false} CountAbsent(c: char, s: string)
    requires forall i :: 0 <= i < |s| ==> s[i] != c
    ensures Count(c, s) == 0
  {
    if s != [] {
      CountAbsent(c, s[1..]);
    }
  }

  /** A chain line holds the tabs of its message and the one in front of it. */
  lemma TabLineTabs(m: string)
    ensures Count('\t', TabLine(m)) == 1 + Count('\t', m)
  {
    CountAppend('\t', m, NewLine);
    CountAbsent('\t', NewLine);
    assert TabLine(m)[1..] == Line(m);
  }

  /** The number of tabs inside the messages of a chain. */
  function MessageTabs(chain: seq<Exn>): nat {
    if chain == [] then 0 else Count('\t', chain[0].message) + MessageTabs(chain[1..])
  }

  /** The chain section holds one tab per chained exception, besides the tabs
      inside the messages themselves. */
  lemma {:induction false} ChainLinesTabs(chain: seq<Exn>)
    ensures Count('\t', ChainLines(chain)) == |chain| + MessageTabs(chain)
  {
    if chain != [] {
      ChainLinesTabs(chain[1..]);
      TabLineTabs(chain[0].message);
      CountAppend('\t', TabLine(chain[0].message), ChainLines(chain[1..]));
    }
  }

  /** Trimming removes no tab. */
  lemma TrimEndKeepsTabs(s: string)
    ensures Count('\t', TrimEndCrLf(s)) == Count('\t', s)
  {
    var r := TrimEndCrLf(s);
    var tail := s[|r|..];
    assert s == r + tail;
    CountAppend('\t', r, tail);
    CountAbsent('\t', tail);
  }

  /** The rendered chain section keeps one tab line per exception of the
      chain after trimming: its tabs are one per chained exception plus those
      inside the messages, so a chain of tab-free messages has exactly one tab
      per exception. */
  lemma TabLinePerChainedException(e: Exn)
    ensures Count('\t', TrimEndCrLf(ChainLines(Chain(e)))) == |Chain(e)| + MessageTabs(Chain(e))
    ensures MessageTabs(Chain(e)) == 0 ==> Count('\t', TrimEndCrLf(ChainLines(Chain(e)))) == |Chain(e)|
  {
    ChainLinesTabs(Chain(e));
    TrimEndKeepsTabs(ChainLines(Chain(e)));
  }

  // ---------------------------------------------------------------------
  // The specification of one log call

  /** The state a log call reads: Enabled, DefaultLoggerName, whether
      OnLogMessage has subscribers, and the backend configuration. */
  datatype Settings = Settings(enabled: bool, defaultLoggerName: string, subscribed: bool, backend: NLog.Backend)

  /** What one log call does: whether it invoked the producer, the
      notifications subscribers received, and the backend writes. */
  datatype Outcome = Outcome(producerInvoked: bool, notes: seq<LogEvent>, writes: seq<NLog.Write>)

  /** A producer whose result suppresses the log: null or the empty string. */
  predicate Suppressed(p: Producer)
    ensures p.Throws? ==> !Suppressed(p)
    ensures p == Returns(None) || p == Returns(Some("")) ==> Suppressed(p)
    ensures p.Returns? && p.value.Some? && |p.value.value| > 0 ==> !Suppressed(p)
  {
    p.Returns? && (p.value.None? || p.value.value == "")
  }

  function FailedToGetText(e: Exn): string {
    "Failed to get logmassage " + e.stackTrace
  }

  function LoggerFailedText(text: string, e: Exn): string {
    "Logger failed trying to log this message: " + text + "\r\nLogger error: " + e.message
  }

  /** UseGenericLogger: a write to the generic logger unless logging is disabled. */
  function GenericWrites(enabled: bool, level: NLog.LogLevel, text: string, error: Option<Exn>): (ws: seq<NLog.Write>)
    ensures |ws| == (if enabled then 1 else 0)
    ensures forall i :: 0 <= i < |ws| ==> ws[i] == NLog.Write(NLog.Generic, level, text, error)
  {
    if enabled then [NLog.Write(NLog.Generic, level, text, error)] else []
  }

  /** LogMessageInternal: where the text of a log call goes. */
  function Route(s: Settings, name: string, level: Level, text: string): (ws: seq<NLog.Write>)
    ensures |ws| <= 1
    ensures forall i :: 0 <= i < |ws| ==> ws[i].level == ToNlogLevel(level) && ws[i].error.None?
    ensures (ws != [] && ws[0].target.Named?) <==>
              && !IsBlank(name) && s.backend.lookupFails(name).None? && s.backend.enabledAt(name, ToNlogLevel(level))
              && s.backend.writeFails(name, ToNlogLevel(level)).None?
    ensures forall i :: 0 <= i < |ws| && ws[i].target.Named? ==> ws[i].target.name == name && ws[i].text == text
    ensures forall i :: 0 <= i < |ws| && ws[i].target.Generic? ==>
              s.enabled && (if IsBlank(name) then ws[i].text == text
                            else
                              var f := NLog.Fault(s.backend, name, ToNlogLevel(level));
                              f.Some? && ws[i].text == LoggerFailedText(text, f.value))
    ensures s.enabled && (IsBlank(name) || NLog.Fault(s.backend, name, ToNlogLevel(level)).Some?) ==> |ws| == 1
  {
    var nlevel := ToNlogLevel(level);
    if IsBlank(name) then GenericWrites(s.enabled, nlevel, text, None)
    else match NLog.Fault(s.backend, name, nlevel)
      case Some(f) => GenericWrites(s.enabled, nlevel, LoggerFailedText(text, f), None)
      case None => if s.backend.enabledAt(name, nlevel) then [NLog.Write(NLog.Named(name), nlevel, text, None)] else []
  }

  /** A named logger that is not enabled at the level is never written to,
      and a failure of its write method is never provoked. */
  lemma DisabledLoggerNeverWrites(s: Settings, name: string, level: Level, text: string)
    requires !IsBlank(name) && s.backend.lookupFails(name).None?
    requires !s.backend.enabledAt(name, ToNlogLevel(level))
    ensures Route(s, name, level, text) == []
  {
  }

  /** One canonical log call `e`; `subscriberFault` is the exception a
      subscriber throws while being notified, if any. */
  function LogSpec(s: Settings, e: LogEvent, subscriberFault: Option<Exn>): (r: Outcome)
    ensures r.producerInvoked <==> s.enabled
    ensures !s.enabled || Suppressed(e.message) ==> r.notes == [] && r.writes == []
    ensures |r.notes| <= 1 && |r.writes| <= 1
    ensures s.enabled && e.message.Throws? ==>
              r.notes == [] &&
              r.writes == [NLog.Write(NLog.Generic, ToNlogLevel(e.level), FailedToGetText(e.message.error), Some(e.message.error))]
    ensures s.enabled && e.message.Returns? && !Suppressed(e.message) ==>
              r.notes == (if s.subscribed
                          then [LogEvent(EffectiveLoggerName(e.loggerName, s.defaultLoggerName), e.level, e.message, e.error)]
                          else [])
    ensures s.enabled && e.message.Returns? && !Suppressed(e.message) ==>
              r.writes == (if s.subscribed && subscriberFault.Some?
                           then [NLog.Write(NLog.Generic, ToNlogLevel(e.level), FailedToGetText(subscriberFault.value), subscriberFault)]
                           else Route(s, EffectiveLoggerName(e.loggerName, s.defaultLoggerName), e.level,
                                      BackendText(e.message.value.value, e.error)))
    ensures r.notes != [] ==> s.subscribed
  {
    if !s.enabled then Outcome(false, [], [])
    else match e.message
      case Throws(pe) =>
        Outcome(true, [], GenericWrites(s.enabled, ToNlogLevel(e.level), FailedToGetText(pe), Some(pe)))
      case Returns(m) =>
        if m.None? || m.value == "" then Outcome(true, [], [])
        else Deliver(s, EffectiveLoggerName(e.loggerName, s.defaultLoggerName), e.level, m.value, e.error, subscriberFault)
  }

  /** The part of a log call after the producer returned the non-empty `msg`
      and the logger name `name` was settled: notification, then routing,
      unless a subscriber threw. */
  function Deliver(s: Settings, name: string, level: Level, msg: string, ex: Option<Exn>, subscriberFault: Option<Exn>): (r: Outcome)
    ensures r.producerInvoked
    ensures r.notes == (if s.subscribed then [LogEvent(name, level, Returns(Some(msg)), ex)] else [])
    ensures s.enabled ==>
              r.writes == (if s.subscribed && subscriberFault.Some?
                           then [NLog.Write(NLog.Generic, ToNlogLevel(level), FailedToGetText(subscriberFault.value), subscriberFault)]
                           else Route(s, name, level, BackendText(msg, ex)))
  {
    var notes := if s.subscribed then [LogEvent(name, level, Returns(Some(msg)), ex)] else [];
    if s.subscribed && subscriberFault.Some? then
      var f := subscriberFault.value;
      Outcome(true, notes, GenericWrites(s.enabled, ToNlogLevel(level), FailedToGetText(f), Some(f)))
    else
      Outcome(true, notes, Route(s, name, level, BackendText(msg, ex)))
  }

  /** A message logged without a name or exception under a non-blank default
      name reaches the default-named logger as the message with trailing CR/LF
      removed, and subscribers see the default name. */
  lemma DefaultNameRoutesPlainMessage(s: Settings, e: LogEvent, msg: string)
    requires s.enabled && e.message == Returns(Some(msg)) && msg != "" && e.error.None?
    requires IsBlank(e.loggerName) && !IsBlank(s.defaultLoggerName)
    requires s.backend.lookupFails(s.defaultLoggerName).None?
    requires s.backend.writeFails(s.defaultLoggerName, ToNlogLevel(e.level)).None?
    requires s.backend.enabledAt(s.defaultLoggerName, ToNlogLevel(e.level))
    ensures LogSpec(s, e, None).writes ==
              [NLog.Write(NLog.Named(s.defaultLoggerName), ToNlogLevel(e.level), TrimEndCrLf(msg), None)]
    ensures s.subscribed ==> LogSpec(s, e, None).notes[0].loggerName == s.defaultLoggerName
  {
    PlainMessageText(msg);
  }

  /** A logged exception reaches an enabled named logger as the message, the
      header lines and one tab line per chained exception. */
  lemma NamedExceptionWrite(s: Settings, e: LogEvent, msg: string, ex: Exn)
    requires s.enabled && e.message == Returns(Some(msg)) && msg != "" && e.error == Some(ex)
    requires !IsBlank(e.loggerName)
    requires s.backend.lookupFails(e.loggerName).None? && s.backend.enabledAt(e.loggerName, ToNlogLevel(e.level))
    requires s.backend.writeFails(e.loggerName, ToNlogLevel(e.level)).None?
    ensures |LogSpec(s, e, None).writes| == 1
    ensures LogSpec(s, e, None).writes[0].target == NLog.Named(e.loggerName)
    ensures LogSpec(s, e, None).writes[0].text ==
              WithExceptionHeader(Line(msg), ex) + TrimEndCrLf(ChainLines(Chain(ex)))
    ensures Count('\t', TrimEndCrLf(ChainLines(Chain(ex)))) == |Chain(ex)| + MessageTabs(Chain(ex))
  {
    ExceptionMessageText(msg, ex);
    TabLinePerChainedException(ex);
  }

  // ---------------------------------------------------------------------
  // The facade's state and operations

  class LogController {
    var enabled: bool
    var defaultLoggerName: string
    var subscribed: bool         // OnLogMessage != null
    var genericCreated: bool     // _genericLogger != null
    var backend: NLog.Backend
    var notified: seq<LogEvent>  // every LogMessageEventArgs delivered to OnLogMessage
    var writes: seq<NLog.Write>  // every Logger.Log call made

    /** The static constructor: logging enabled, an empty default name. */
    constructor (backend: NLog.Backend)
      ensures enabled && defaultLoggerName == "" && !subscribed && !genericCreated
      ensures this.backend == backend && notified == [] && writes == []
    {
      enabled := true;
      defaultLoggerName := "";
      subscribed := false;
      genericCreated := false;
      this.backend := backend;
      notified := [];
      writes := [];
    }

    function Config(): Settings
      reads this`enabled, this`defaultLoggerName, this`subscribed, this`backend
    {
      Settings(enabled, defaultLoggerName, subscribed, backend)
    }

    /** OnLogMessage += handler. */
    method Subscribe()
      modifies this`subscribed
      ensures subscribed
    {
      subscribed := true;
    }

    /** The GenericLogger property: the generic logger is created on first use and cached. */
    method GenericLogger()
      modifies this`genericCreated
      ensures genericCreated
    {
      if !genericCreated {
        genericCreated := true;
      }
    }

    method UseGenericLogger(level: NLog.LogLevel, text: string, error: Option<Exn>)
      modifies this`genericCreated, this`writes
      ensures writes == old(writes) + GenericWrites(enabled, level, text, error)
      ensures genericCreated == (old(genericCreated) || enabled)
    {
      if !enabled {
        return;
      }
      GenericLogger();
      writes := writes + [NLog.Write(NLog.Generic, level, text, error)];
    }

    method LogMessageInternal(name: string, level: Level, text: string)
      modifies this`genericCreated, this`writes
      ensures writes == old(writes) + Route(Config(), name, level, text)
      ensures genericCreated == (old(genericCreated) || NLog.TouchesGeneric(Route(Config(), name, level, text)))
    {
      if IsBlank(name) {
        UseGenericLogger(ToNlogLevel(level), text, None);
      } else {
        // try
        var fault := backend.lookupFails(name);
        if fault.None? && backend.enabledAt(name, ToNlogLevel(level)) {
          fault := backend.writeFails(name, ToNlogLevel(level));
          if fault.None? {
            writes := writes + [NLog.Write(NLog.Named(name), ToNlogLevel(level), text, None)];
          }
        }
        // catch
        if fault.Some? {
          UseGenericLogger(ToNlogLevel(level), LoggerFailedText(text, fault.value), None);
        }
      }
    }

    /** The canonical LogMessage(loggerName, logLevel, logMessage, ex). The
        result tells whether the producer was invoked. */
    method LogMessage(loggerName: string, level: Level, producer: Producer, ex: Option<Exn>, subscriberFault: Option<Exn>)
      returns (invoked: bool)
      modifies this`genericCreated, this`writes, this`notified
      ensures var o := LogSpec(Config(), LogEvent(loggerName, level, producer, ex), subscriberFault);
              invoked == o.producerInvoked &&
              notified == old(notified) + o.notes &&
              writes == old(writes) + o.writes &&
              genericCreated == (old(genericCreated) || NLog.TouchesGeneric(o.writes))
    {
      invoked := false;
      if !enabled {
        return;
      }
      var caught: Option<Exn> := None;
      invoked := true;
      match producer {
        case Throws(pe) =>
          caught := Some(pe);
        case Returns(m) =>
          if m.None? || m.value == "" {
            return;
          }
          var name := loggerName;
          if IsBlank(name) {
            name := defaultLoggerName;
          }
          DeliverMessage(name, level, m.value, ex, subscriberFault);
      }
      if caught.Some? {
        UseGenericLogger(ToNlogLevel(level), FailedToGetText(caught.value), caught);
      }
    }

    /** The rest of the try block once the message is known: notify the
        subscribers, render the text and hand it to LogMessageInternal; a
        subscriber's exception is caught and logged to the generic logger. */
    method DeliverMessage(name: string, level: Level, msg: string, ex: Option<Exn>, subscriberFault: Option<Exn>)
      modifies this`genericCreated, this`writes, this`notified
      ensures var o := Deliver(Config(), name, level, msg, ex, subscriberFault);
              notified == old(notified) + o.notes &&
              writes == old(writes) + o.writes &&
              genericCreated == (old(genericCreated) || NLog.TouchesGeneric(o.writes))
    {
      ghost var o := Deliver(Config(), name, level, msg, ex, subscriberFault);
      var caught: Option<Exn> := None;
      if subscribed {
        notified := notified + [LogEvent(name, level, Returns(Some(msg)), ex)];
        caught := subscriberFault;
      }
      if caught.None? {
        var text := RenderText(msg, ex);
        assert o.writes == Route(Config(), name, level, text);
        LogMessageInternal(name, level, text);
      } else {
        assert o.writes == GenericWrites(enabled, ToNlogLevel(level), FailedToGetText(caught.value), caught);
        UseGenericLogger(ToNlogLevel(level), FailedToGetText(caught.value), caught);
      }
    }

    /** LogMessage(logLevel, logMessage, ex): the canonical call with an empty logger name. */
    method LogDefault(level: Level, producer: Producer, ex: Option<Exn>, subscriberFault: Option<Exn>)
      returns (invoked: bool)
      modifies this`genericCreated, this`writes, this`notified
      ensures var o := LogSpec(Config(), LogEvent("", level, producer, ex), subscriberFault);
              invoked == o.producerInvoked &&
              notified == old(notified) + o.notes &&
              writes == old(writes) + o.writes &&
              genericCreated == (old(genericCreated) || NLog.TouchesGeneric(o.writes))
    {
      invoked := LogMessage("", level, producer, ex, subscriberFault);
    }

    /** LogMessage(LogMessageEventArgs): nothing happens for null arguments. */
    method LogArgs(args: Option<LogEvent>, subscriberFault: Option<Exn>)
      returns (invoked: bool)
      modifies this`genericCreated, this`writes, this`notified
      ensures args.None? ==> !invoked && notified == old(notified) && writes == old(writes) && genericCreated == old(genericCreated)
      ensures args.Some? ==>
                var o := LogSpec(Config(), args.value, subscriberFault);
                invoked == o.producerInvoked &&
                notified == old(notified) + o.notes &&
                writes == old(writes) + o.writes &&
                genericCreated == (old(genericCreated) || NLog.TouchesGeneric(o.writes))
    {
      invoked := false;
      if args.Some? {
        var a := args.value;
        invoked := LogMessage(a.loggerName, a.level, a.message, a.error, subscriberFault);
      }
    }

    /** IsLoggerNameInUse: whether a configured rule's pattern equals the name,
        the default name standing in for a blank one. */
    function IsLoggerNameInUse(loggerName: string): (r: bool)
      reads this
      ensures r <==> EffectiveLoggerName(loggerName, defaultLoggerName) in backend.rules
      ensures !IsBlank(loggerName) ==> (r <==> loggerName in backend.rules)
    {
      var name := if IsBlank(loggerName) then defaultLoggerName else loggerName;
      FirstRule(backend.rules, name).Some?
    }
  }
}
