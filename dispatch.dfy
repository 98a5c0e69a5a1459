/// The dispatcher of conans/client/command.py (`Command.run`): it looks the
/// first token up in the command table, calls the handler with the remaining
/// tokens, and turns whatever the handler raised into one exit code through
/// an ordered chain of `except` clauses.
module Dispatch {
  import opened Common
  import opened Registry

  /** An exception that can escape a handler. */
  datatype Raised =
    | KeyboardInterrupt
    | SystemExit(code: Option<int>)
    | ConanInvalidConfiguration(msg: string)
    | ConanInvalidSystemRequirements(msg: string)
    | ConanException(msg: string)
    | OtherException(msg: string)  // any other `Exception`, e.g. the lookup's IndexError or KeyError

  /** The classes named by the `except` clauses of `run`. */
  datatype ExceptionClass =
    | KeyboardInterruptClass
    | SystemExitClass
    | ConanInvalidConfigurationClass
    | ConanInvalidSystemRequirementsClass
    | ConanExceptionClass
    | ExceptionClass

  /**
   * `isinstance(e, c)`: the two invalid-configuration errors are
   * `ConanException`s, and `KeyboardInterrupt` and `SystemExit` are not
   * `Exception`s.
   */
  predicate IsInstance(e: Raised, c: ExceptionClass) {
    match c
    case KeyboardInterruptClass => e.KeyboardInterrupt?
    case SystemExitClass => e.SystemExit?
    case ConanInvalidConfigurationClass => e.ConanInvalidConfiguration?
    case ConanInvalidSystemRequirementsClass => e.ConanInvalidSystemRequirements?
    case ConanExceptionClass =>
      e.ConanInvalidConfiguration? || e.ConanInvalidSystemRequirements? || e.ConanException?
    case ExceptionClass => !e.KeyboardInterrupt? && !e.SystemExit?
  }

  /** The `except` clauses of `run`, in source order. */
  const Clauses: seq<ExceptionClass> := [
    KeyboardInterruptClass, SystemExitClass, ConanInvalidConfigurationClass,
    ConanInvalidSystemRequirementsClass, ConanExceptionClass, ExceptionClass
  ]

  /** The first clause that catches `e`. */
  function FirstMatch(e: Raised, cs: seq<ExceptionClass>): (r: Option<ExceptionClass>)
    ensures r.Some? ==> r.value in cs && IsInstance(e, r.value)
    ensures r.None? ==> forall c :: c in cs ==> !IsInstance(e, c)
    ensures r.Some? ==> exists k :: 0 <= k < |cs| && cs[k] == r.value && forall j :: 0 <= j < k ==> !IsInstance(e, cs[j])
    decreases |cs|
  {
    if cs == [] then None
    else if IsInstance(e, cs[0]) then Some(cs[0])
    else
      var rest := FirstMatch(e, cs[1..]);
      if rest.Some? then
        var k :| 0 <= k < |cs[1..]| && cs[1..][k] == rest.value
                 && forall j :: 0 <= j < k ==> !IsInstance(e, cs[1..][j]);
        assert cs[k + 1] == rest.value && forall j :: 0 <= j < k + 1 ==> !IsInstance(e, cs[j]);
        rest
      else rest
  }

  /** The class an exception is an instance of, most specific first. */
  function ClassOf(e: Raised): ExceptionClass {
    match e
    case KeyboardInterrupt => KeyboardInterruptClass
    case SystemExit(_) => SystemExitClass
    case ConanInvalidConfiguration(_) => ConanInvalidConfigurationClass
    case ConanInvalidSystemRequirements(_) => ConanInvalidSystemRequirementsClass
    case ConanException(_) => ConanExceptionClass
    case OtherException(_) => ExceptionClass
  }

  /**
   * The clause chain is total and, since every subclass is listed before
   * its base class, the clause that catches an exception is the one for its
   * own class.
   */
  lemma ClauseForOwnClass(e: Raised)
    ensures FirstMatch(e, Clauses) == Some(ClassOf(e))
  {
    var cs := Clauses;
    assert cs[1..][1..][1..][1..][1..] == [ExceptionClass];
  }

  /** The exit codes of the client; their numbers live in a module this model does not include. */
  datatype ExitCode =
    | ExitSuccess
    | ErrorGeneral
    | ErrorInvalidConfiguration
    | ErrorInvalidSystemRequirements
    | Status(n: int)  // the code a `SystemExit` carried

  /** What `run` reports on the user-facing error channel. */
  datatype Report =
    | Silent
    | ExitingWithCode(code: int)     // "Exiting with code: %d"
    | ErrorMessage(msg: string)      // the exception's own message
    | SanitizedMessage(msg: string)  // the message after `exception_message_safe`

  /** How `run` ends: it returns a code, or a `TypeError` escapes its `SystemExit` clause. */
  datatype Outcome = Returned(code: ExitCode, report: Report) | Escapes(error: string)

  /** The `try`/`except` chain of `run`: what each outcome of the handler becomes. */
  function Handle(raised: Option<Raised>): (o: Outcome)
    ensures o.Escapes? <==> raised == Some(SystemExit(None))
    ensures o == Returned(ExitSuccess, Silent) <==> raised.None? || raised == Some(KeyboardInterrupt)
    ensures o.Returned? && o.report.SanitizedMessage? <==> raised.Some? && raised.value.OtherException?
    ensures o.Returned? && o.code == ErrorGeneral <==>
              raised.Some? && (raised.value.ConanException? || raised.value.OtherException?)
  {
    match raised
    case None => Returned(ExitSuccess, Silent)
    case Some(e) =>
      ClauseForOwnClass(e);
      match FirstMatch(e, Clauses)
      case Some(KeyboardInterruptClass) => Returned(ExitSuccess, Silent)
      case Some(SystemExitClass) =>
        (match e.code
         case None => Escapes("TypeError")  // "%d" % None
         case Some(n) => Returned(Status(n), if n != 0 then ExitingWithCode(n) else Silent))
      case Some(ConanInvalidConfigurationClass) => Returned(ErrorInvalidConfiguration, ErrorMessage(e.msg))
      case Some(ConanInvalidSystemRequirementsClass) =>
        Returned(ErrorInvalidSystemRequirements, ErrorMessage(e.msg))
      case Some(ConanExceptionClass) => Returned(ErrorGeneral, ErrorMessage(e.msg))
      case Some(ExceptionClass) => Returned(ErrorGeneral, SanitizedMessage(e.msg))
      case None => assert false; Returned(ErrorGeneral, Silent)
  }

  /** Every outcome of a handler, exception by exception. */
  lemma HandleByKind(raised: Option<Raised>)
    ensures raised.None? ==> Handle(raised) == Returned(ExitSuccess, Silent)
    ensures raised == Some(KeyboardInterrupt) ==> Handle(raised) == Returned(ExitSuccess, Silent)
    ensures raised.Some? && raised.value.SystemExit? && raised.value.code.Some? ==>
              var n := raised.value.code.value;
              Handle(raised) == Returned(Status(n), if n != 0 then ExitingWithCode(n) else Silent)
    ensures raised == Some(SystemExit(None)) ==> Handle(raised).Escapes?
    ensures raised.Some? && raised.value.ConanInvalidConfiguration? ==>
              Handle(raised) == Returned(ErrorInvalidConfiguration, ErrorMessage(raised.value.msg))
    ensures raised.Some? && raised.value.ConanInvalidSystemRequirements? ==>
              Handle(raised) == Returned(ErrorInvalidSystemRequirements, ErrorMessage(raised.value.msg))
    ensures raised.Some? && raised.value.ConanException? ==>
              Handle(raised) == Returned(ErrorGeneral, ErrorMessage(raised.value.msg))
    ensures raised.Some? && raised.value.OtherException? ==>
              Handle(raised) == Returned(ErrorGeneral, SanitizedMessage(raised.value.msg))
  {
    if raised.Some? {
      ClauseForOwnClass(raised.value);
    }
  }

  /** A lower-case hexadecimal digit. */
  function HexDigit(d: nat): (c: char)
    requires d < 16
    ensures c in "0123456789abcdef"
  {
    "0123456789abcdef"[d]
  }

  /** Whether `repr` writes a character as itself (for a string quoted with `q`). */
  predicate PlainChar(c: char, q: char) {
    c != q && c != '\\' && ' ' <= c && c as int != 0x7f
  }

  /** How `repr` writes one character of a string quoted with `q`. */
  function EscapeChar(c: char, q: char): (r: string)
    ensures PlainChar(c, q) <==> r == [c]
    ensures !PlainChar(c, q) ==> |r| >= 2 && r[0] == '\\'
  {
    if c == q || c == '\\' then ['\\', c]
    else if c == '\t' then "\\t"
    else if c == '\n' then "\\n"
    else if c == '\r' then "\\r"
    else if c < ' ' || c as int == 0x7f then "\\x" + [HexDigit(c as int / 16), HexDigit(c as int % 16)]
    else [c]
  }

  function Escaped(s: string, q: char): string
    decreases |s|
  {
    if s == [] then "" else EscapeChar(s[0], q) + Escaped(s[1..], q)
  }

  /** The quote `repr` picks: double quotes only for a string with `'` and no `"`. */
  function QuoteFor(s: string): char {
    if '\'' in s && '"' !in s then '"' else '\''
  }

  /** `repr(s)` of a string, which is what `str()` of a `KeyError(s)` prints. */
  function Repr(s: string): (r: string)
    ensures |r| >= 2 && r[0] == QuoteFor(s) && r[|r| - 1] == QuoteFor(s)
  {
    [QuoteFor(s)] + Escaped(s, QuoteFor(s)) + [QuoteFor(s)]
  }

  /** A string none of whose characters `repr` escapes is written back unchanged. */
  lemma {:induction false} EscapedPlain(s: string, q: char)
    requires forall i :: 0 <= i < |s| ==> PlainChar(s[i], q)
    ensures Escaped(s, q) == s
    decreases |s|
  {
    if s != [] {
      EscapedPlain(s[1..], q);
      assert s == [s[0]] + s[1..];
    }
  }

  /**
   * A token without `'`, backslash or control characters prints in single
   * quotes as it is; `repr("it's")` is `"it's"`.
   */
  lemma ReprPlain(s: string)
    requires forall i :: 0 <= i < |s| ==> PlainChar(s[i], '\'')
    ensures Repr(s) == "'" + s + "'"
  {
    assert forall i :: 0 <= i < |s| ==> s[i] != '\'';
    EscapedPlain(s, '\'');
  }

  /** A quote inside the token switches `repr` to double quotes. */
  lemma ReprApostrophe()
    ensures Repr("it's") == "\"it's\""
  {
    var s := "it's";
    assert s[2] == '\'';
    assert QuoteFor(s) == '"';
    assert Escaped(s, '"') == s by {
      EscapedPlain(s, '"');
    }
  }

  /** A handler call: the bound method and the tokens it receives. */
  datatype Invocation = Invocation(handler: Member, args: seq<string>)

  /** What one call of `run` does: which handler it invoked, if any, and how it ended. */
  datatype RunResult = RunResult(invoked: Option<Invocation>, outcome: Outcome)

  /**
   * `Command.run(argv)`, with `execute` standing for the handlers' own
   * behaviour (argument parsing and the calls into the API), which this
   * model does not include.
   */
  function Run(argv: seq<string>, members: seq<Member>, execute: Invocation -> Option<Raised>): (r: RunResult)
    ensures r.invoked.Some? <==> |argv| > 0 && argv[0] in Registered(members)
    ensures r.invoked.Some? ==>
              r.invoked.value == Invocation(Registered(members)[argv[0]], argv[1..])
              && r.outcome == Handle(execute(r.invoked.value))
    ensures r.invoked.None? ==> r.outcome.Returned? && r.outcome.code == ErrorGeneral
  {
    if |argv| == 0 then
      var o := Handle(Some(OtherException("list index out of range")));
      HandleByKind(Some(OtherException("list index out of range")));
      RunResult(None, o)
    else
      var commands := Registered(members);
      if argv[0] !in commands then
        var o := Handle(Some(OtherException(Repr(argv[0]))));
        HandleByKind(Some(OtherException(Repr(argv[0]))));
        RunResult(None, o)
      else
        var call := Invocation(commands[argv[0]], argv[1..]);
        RunResult(Some(call), Handle(execute(call)))
  }

  /** An unknown command ends in the generic branch: a `KeyError` reported as a general error. */
  lemma UnknownCommand(argv: seq<string>, members: seq<Member>, execute: Invocation -> Option<Raised>)
    requires |argv| > 0
    requires forall m :: m in members && Exposed(m) ==> PublicName(m.name) != argv[0]
    ensures Run(argv, members, execute) ==
              RunResult(None, Returned(ErrorGeneral, SanitizedMessage(Repr(argv[0]))))
  {
    RegisteredNames(members, argv[0]);
    HandleByKind(Some(OtherException(Repr(argv[0]))));
  }

  /** Cancelling a registered command with Ctrl-C is not a failure. */
  lemma InterruptIsSuccess(argv: seq<string>, members: seq<Member>, execute: Invocation -> Option<Raised>)
    requires |argv| > 0 && argv[0] in Registered(members)
    requires execute(Invocation(Registered(members)[argv[0]], argv[1..])) == Some(KeyboardInterrupt)
    ensures Run(argv, members, execute).outcome == Returned(ExitSuccess, Silent)
  {
  }
}
