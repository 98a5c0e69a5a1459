/// The two argument policies of the command line (conans/client/command.py):
/// `Extender`, which collects every occurrence of a repeatable flag into one
/// list, and `OnceArgument`, which refuses a flag given twice. Both act on the
/// namespace the argument parser fills in and, for `Extender`, on the parser's
/// table of defaults.
module ArgActions {
  import opened Common

  /** A value held in the parsed-argument namespace. */
  datatype Value =
    | PyNone
    | PyBool(b: bool)
    | PyInt(i: int)
    | PyStr(s: string)
    | PyList(items: seq<string>)

  /**
   * What the parser hands an `Extender` for one occurrence of its flag:
   * one string (no `nargs`, or `nargs="?"` with a value), a list of strings
   * (`nargs=1` or `nargs="*"`), or `None` (`nargs="?"` without a value).
   */
  datatype Occurrence = Single(s: string) | Several(xs: seq<string>) | Absent

  /** A registered flag: its destination and its declared default. */
  datatype Action = Action(dest: string, default: Value)

  /** One occurrence of a once-only flag: the spelling used (`-r` or `--remote`) and its value. */
  datatype Spelled = Spelled(option: string, value: Value)

  /** The parser's state while it parses: the namespace and its table of defaults. */
  datatype ParseState = ParseState(namespace: map<string, Value>, defaults: map<string, Value>)

  /**
   * The default an action compares against. `parser.set_defaults(dest=v)`
   * also rewrites the `default` of every action with that destination, so a
   * default recorded in the parser's table wins over the declared one.
   */
  function EffectiveDefault(defaults: map<string, Value>, a: Action): Value {
    if a.dest in defaults then defaults[a.dest] else a.default
  }

  /** The strings one occurrence adds to the list. */
  function Added(values: Occurrence): seq<string> {
    match values
    case Single(s) => [s]
    case Several(xs) => xs
    case Absent => []
  }

  /** The strings a run of occurrences adds, in command-line order. */
  function AddedAll(occs: seq<Occurrence>): seq<string>
    decreases |occs|
  {
    if occs == [] then [] else Added(occs[0]) + AddedAll(occs[1..])
  }

  /** Whether `Extender` starts a fresh list for this destination. */
  predicate Restarts(st: ParseState, a: Action) {
    a.dest !in st.namespace
    || !st.namespace[a.dest].PyList?
    || st.namespace[a.dest] == EffectiveDefault(st.defaults, a)
  }

  /** One call of `Extender.__call__`: the state it leaves behind. */
  function Extend(st: ParseState, a: Action, values: Occurrence): (r: ParseState)
    ensures a.dest in r.namespace && r.namespace[a.dest].PyList?
    ensures r.namespace == st.namespace[a.dest := r.namespace[a.dest]]
    ensures r.defaults == st.defaults || r.defaults == st.defaults[a.dest := PyNone]
  {
    var kept := if Restarts(st, a) then [] else st.namespace[a.dest].items;
    ParseState(st.namespace[a.dest := PyList(kept + Added(values))],
               if Restarts(st, a) then st.defaults[a.dest := PyNone] else st.defaults)
  }

  /** The parser calling `Extender` once per occurrence, left to right. */
  function ExtendAll(st: ParseState, a: Action, occs: seq<Occurrence>): ParseState
    decreases |occs|
  {
    if occs == [] then st else ExtendAll(Extend(st, a, occs[0]), a, occs[1..])
  }

  /**
   * First occurrence: a destination that holds no list, or still holds its
   * default, becomes a fresh list holding just what this occurrence adds —
   * an empty list, not `None`, when it adds nothing — and the parser's
   * default for it becomes `None`.
   */
  lemma ExtendFirstOccurrence(st: ParseState, a: Action, values: Occurrence)
    requires Restarts(st, a)
    ensures Extend(st, a, values).namespace[a.dest] == PyList(Added(values))
    ensures Extend(st, a, values).defaults == st.defaults[a.dest := PyNone]
    ensures values.Absent? || values == Several([]) ==> Extend(st, a, values).namespace[a.dest] == PyList([])
  {
  }

  /**
   * After a restart the default reads `None` and the destination holds a
   * list, so the next occurrence appends instead of restarting again.
   */
  lemma ExtendStopsRestarting(st: ParseState, a: Action, values: Occurrence)
    requires Restarts(st, a)
    ensures !Restarts(Extend(st, a, values), a)
    ensures EffectiveDefault(Extend(st, a, values).defaults, a) == PyNone
  {
  }

  /** Later occurrences append to the list already there; nothing else changes. */
  lemma {:induction false} ExtendContinues(st: ParseState, a: Action, occs: seq<Occurrence>, xs: seq<string>)
    requires a.dest in st.namespace && st.namespace[a.dest] == PyList(xs)
    requires a.dest in st.defaults && st.defaults[a.dest] == PyNone
    ensures ExtendAll(st, a, occs).namespace == st.namespace[a.dest := PyList(xs + AddedAll(occs))]
    ensures ExtendAll(st, a, occs).defaults == st.defaults
    decreases |occs|
  {
    if occs != [] {
      var next := Extend(st, a, occs[0]);
      assert !Restarts(st, a);
      assert next.namespace[a.dest] == PyList(xs + Added(occs[0]));
      ExtendContinues(next, a, occs[1..], xs + Added(occs[0]));
      assert xs + Added(occs[0]) + AddedAll(occs[1..]) == xs + AddedAll(occs);
      assert next.namespace == st.namespace[a.dest := PyList(xs + Added(occs[0]))];
    } else {
      assert xs + AddedAll(occs) == xs;
      assert st.namespace[a.dest := PyList(xs)] == st.namespace;
    }
  }

  /**
   * Repetition: however many times the flag is given, the destination ends
   * up holding every value, in command-line order, and no other
   * destination changes.
   */
  lemma {:induction false} ExtendAccumulates(st: ParseState, a: Action, occs: seq<Occurrence>)
    requires occs != []
    requires Restarts(st, a)
    ensures ExtendAll(st, a, occs).namespace == st.namespace[a.dest := PyList(AddedAll(occs))]
    ensures ExtendAll(st, a, occs).defaults == st.defaults[a.dest := PyNone]
  {
    var first := Extend(st, a, occs[0]);
    ExtendFirstOccurrence(st, a, occs[0]);
    ExtendContinues(first, a, occs[1..], Added(occs[0]));
    assert first.namespace[a.dest := PyList(Added(occs[0]) + AddedAll(occs[1..]))]
        == st.namespace[a.dest := PyList(AddedAll(occs))];
  }

  /**
   * When every occurrence carries one string (a plain flag, or an `nargs=1`
   * flag such as `-o`), the list has one element per occurrence, in order.
   */
  lemma {:induction false} SingleValuesCounted(occs: seq<Occurrence>)
    requires forall i :: 0 <= i < |occs| ==> |Added(occs[i])| == 1
    ensures |AddedAll(occs)| == |occs|
    ensures forall i :: 0 <= i < |occs| ==> AddedAll(occs)[i] == Added(occs[i])[0]
    decreases |occs|
  {
    if occs != [] {
      SingleValuesCounted(occs[1..]);
      assert Added(occs[0]) == [Added(occs[0])[0]];
      assert AddedAll(occs) == [Added(occs[0])[0]] + AddedAll(occs[1..]);
    }
  }

  /** `-o qt:value -o mode:2` (an `nargs=1` flag) leaves `['qt:value', 'mode:2']`. */
  lemma OptionsExample(st: ParseState)
    requires "options_host" in st.namespace && st.namespace["options_host"] == PyNone
    ensures var a := Action("options_host", PyNone);
      ExtendAll(st, a, [Several(["qt:value"]), Several(["mode:2"])]).namespace["options_host"]
        == PyList(["qt:value", "mode:2"])
  {
    var a := Action("options_host", PyNone);
    var occs := [Several(["qt:value"]), Several(["mode:2"])];
    ExtendAccumulates(st, a, occs);
    assert AddedAll(occs) == ["qt:value"] + AddedAll(occs[1..]);
  }

  /** Why `OnceArgument` may refuse an occurrence. */
  datatype ParseError =
    | AttributeMissing(dest: string)  // getattr(namespace, dest) on an unset destination
    | ArgumentError(msg: string)

  function OnceMessage(option: string): string {
    option + " can only be specified once"
  }

  /** One call of `OnceArgument.__call__`, for an occurrence spelled `option`. */
  function Once(st: ParseState, a: Action, option: string, values: Value): (r: Result<ParseState, ParseError>)
    ensures r.Failure? <==>
              (a.dest !in st.namespace
               || (st.namespace[a.dest] != PyNone && EffectiveDefault(st.defaults, a) == PyNone))
    ensures r.Failure? ==>
              r.error == (if a.dest !in st.namespace then AttributeMissing(a.dest)
                          else ArgumentError(OnceMessage(option)))
    ensures r.Success? ==> r.value == ParseState(st.namespace[a.dest := values], st.defaults)
  {
    if a.dest !in st.namespace then Failure(AttributeMissing(a.dest))
    else if st.namespace[a.dest] != PyNone && EffectiveDefault(st.defaults, a) == PyNone then
      Failure(ArgumentError(OnceMessage(option)))
    else Success(ParseState(st.namespace[a.dest := values], st.defaults))
  }

  /** The parser calling `OnceArgument` once per occurrence; the first refusal ends the parse. */
  function OnceAll(st: ParseState, a: Action, occs: seq<Spelled>): Result<ParseState, ParseError>
    decreases |occs|
  {
    if occs == [] then Success(st)
    else match Once(st, a, occs[0].option, occs[0].value)
      case Failure(e) => Failure(e)
      case Success(next) => OnceAll(next, a, occs[1..])
  }

  /**
   * A flag whose default is `None`, parsed from an unset destination,
   * succeeds iff it is given at most once; given once it holds exactly that
   * value, given more often the second occurrence is refused with
   * "<opt> can only be specified once", naming the spelling that occurrence used.
   */
  lemma OnceAtMostOnce(st: ParseState, a: Action, occs: seq<Spelled>)
    requires a.dest in st.namespace && st.namespace[a.dest] == PyNone
    requires EffectiveDefault(st.defaults, a) == PyNone
    requires forall i :: 0 <= i < |occs| ==> occs[i].value != PyNone
    ensures OnceAll(st, a, occs).Success? <==> |occs| <= 1
    ensures |occs| == 1 ==> OnceAll(st, a, occs) == Success(ParseState(st.namespace[a.dest := occs[0].value], st.defaults))
    ensures |occs| >= 2 ==> OnceAll(st, a, occs) == Failure(ArgumentError(OnceMessage(occs[1].option)))
  {
    if |occs| >= 1 {
      var next := ParseState(st.namespace[a.dest := occs[0].value], st.defaults);
      assert Once(st, a, occs[0].option, occs[0].value) == Success(next);
      if |occs| >= 2 {
        assert Once(next, a, occs[1].option, occs[1].value).Failure?;
      }
    }
  }

  /** `-r a --remote b` is refused with the long spelling, the one the repeated occurrence used. */
  lemma OnceNamesRepeatedSpelling(st: ParseState)
    requires "remote" in st.namespace && st.namespace["remote"] == PyNone
    requires "remote" !in st.defaults
    ensures OnceAll(st, Action("remote", PyNone), [Spelled("-r", PyStr("a")), Spelled("--remote", PyStr("b"))])
            == Failure(ArgumentError(OnceMessage("--remote")))
  {
    var occs := [Spelled("-r", PyStr("a")), Spelled("--remote", PyStr("b"))];
    OnceAtMostOnce(st, Action("remote", PyNone), occs);
  }

  /** A flag whose default is not `None` never refuses: the last occurrence wins. */
  lemma {:induction false} OnceOverwrites(st: ParseState, a: Action, occs: seq<Spelled>)
    requires a.dest in st.namespace
    requires EffectiveDefault(st.defaults, a) != PyNone
    requires occs != []
    ensures OnceAll(st, a, occs) == Success(ParseState(st.namespace[a.dest := occs[|occs| - 1].value], st.defaults))
    decreases |occs|
  {
    var next := ParseState(st.namespace[a.dest := occs[0].value], st.defaults);
    assert Once(st, a, occs[0].option, occs[0].value) == Success(next);
    if |occs| > 1 {
      OnceOverwrites(next, a, occs[1..]);
      assert next.namespace[a.dest := occs[|occs| - 1].value] == st.namespace[a.dest := occs[|occs| - 1].value];
    }
  }

  /** The namespace and defaults table as the parser mutates them in place. */
  class ParseSession {
    var namespace: map<string, Value>
    var defaults: map<string, Value>

    function State(): ParseState
      reads this
    {
      ParseState(namespace, defaults)
    }

    /** `Extender.__call__`. */
    method Extender(a: Action, values: Occurrence)
      modifies this
      ensures State() == Extend(old(State()), a, values)
    {
      var dest := if a.dest in namespace then namespace[a.dest] else PyNone;
      if !dest.PyList? || dest == EffectiveDefault(defaults, a) {
        dest := PyList([]);
        namespace := namespace[a.dest := dest];
        defaults := defaults[a.dest := PyNone];
      }
      match values {
        case Single(s) =>
          dest := PyList(dest.items + [s]);
        case Several(xs) =>
          if xs != [] {
            dest := PyList(dest.items + xs);
          }
        case Absent =>
      }
      assert dest.items == (if Restarts(old(State()), a) then [] else old(namespace)[a.dest].items) + Added(values);
      namespace := namespace[a.dest := dest];
    }

    /** `OnceArgument.__call__`: on a refusal the namespace is left as it was. */
    method OnceArgument(a: Action, option: string, values: Value) returns (err: Option<ParseError>)
      modifies this
      ensures Once(old(State()), a, option, values).Success? ==>
                err == None && State() == Once(old(State()), a, option, values).value
      ensures Once(old(State()), a, option, values).Failure? ==>
                err == Some(Once(old(State()), a, option, values).error) && State() == old(State())
    {
      if a.dest !in namespace {
        return Some(AttributeMissing(a.dest));
      }
      if namespace[a.dest] != PyNone && EffectiveDefault(defaults, a) == PyNone {
        return Some(ArgumentError(OnceMessage(option)));
      }
      namespace := namespace[a.dest := values];
      err := None;
    }
  }
}
