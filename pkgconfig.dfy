/// The in-memory model of a pkg-config `.pc` file
/// (conan/tools/gnu/pkgconfig_pkg/__init__.py): how a variable and a line
/// print, the table of known keywords, and the keyword and variable tables of
/// a package with their set and get operations.
module PkgConfig {
  import opened Common

  /** A variable definition of a `.pc` file. */
  datatype Variable = Variable(key: string, value: string)

  /** `PkgConfigVariable.__str__`: `key=value`. */
  function VariableText(v: Variable): (r: string)
    ensures |r| == |v.key| + 1 + |v.value|
    ensures r[..|v.key|] == v.key && r[|v.key|] == '=' && r[|v.key| + 1..] == v.value
  {
    v.key + "=" + v.value
  }

  /** The position of the first `c` in `s`, if any. */
  function FirstIndex(s: string, c: char): (r: Option<nat>)
    ensures r.Some? ==> r.value < |s| && s[r.value] == c && c !in s[..r.value]
    ensures r.None? ==> c !in s
    decreases |s|
  {
    if s == [] then None
    else if s[0] == c then Some(0)
    else match FirstIndex(s[1..], c)
      case None => None
      case Some(i) => assert s[..i + 1] == [s[0]] + s[1..][..i]; Some(i + 1)
  }

  /** Reading a variable line back: everything before the first `=` is the key, the rest the value. */
  function SplitVariable(s: string): (r: Option<Variable>)
    ensures r.Some? ==> '=' !in r.value.key && s == r.value.key + "=" + r.value.value
    ensures r.None? <==> '=' !in s
  {
    match FirstIndex(s, '=')
    case None => None
    case Some(i) =>
      assert s == s[..i] + "=" + s[i + 1..];
      Some(Variable(s[..i], s[i + 1..]))
  }

  /** A variable whose key holds no `=` reads back as itself from its text. */
  lemma VariableRoundTrip(v: Variable)
    requires '=' !in v.key
    ensures SplitVariable(VariableText(v)) == Some(v)
  {
    var s := VariableText(v);
    var i := FirstIndex(s, '=');
    assert s[..|v.key|] == v.key;
    assert i == Some(|v.key|);
  }

  /** A line of a `.pc` file: its content and its trailing comment, each possibly absent. */
  datatype Line = Line(value: Option<string>, comment: Option<string>)

  /** `str()` of an optional part: an absent part prints as nothing. */
  function PartText(o: Option<string>): string {
    if o.Some? then o.value else ""
  }

  /** `PkgConfigLine.__str__`: the content, then the comment. */
  function LineText(l: Line): (r: string)
    ensures |r| == |PartText(l.value)| + |PartText(l.comment)|
    ensures r[..|PartText(l.value)|] == PartText(l.value)
    ensures r[|PartText(l.value)|..] == PartText(l.comment)
    ensures l.value.None? ==> r == PartText(l.comment)
    ensures l.comment.None? ==> r == PartText(l.value)
  {
    var value := if l.value.None? then "" else l.value.value;
    var comment := if l.comment.None? then "" else l.comment.value;
    assert l.value.None? ==> value + comment == comment;
    assert l.comment.None? ==> value + comment == value;
    value + comment
  }

  /** `PkgConfigPkg._valid_keywords`: the keywords a `.pc` file may set, by lower-case name. */
  const ValidKeywords: map<string, string> := map[
    "name" := "Name",
    "version" := "Version",
    "description" := "Description",
    "url" := "Url",
    "requires" := "Requires",
    "requires.private" := "Requires.private",
    "conflicts" := "Conflicts",
    "provides" := "Provides",
    "cflags" := "Cflags",
    "cflags.private" := "Cflags.private",
    "libs" := "Libs",
    "libs.private" := "Libs.private"
  ]

  predicate IsUpper(c: char) {
    'A' <= c <= 'Z'
  }

  /** `str.lower()` on one character (ASCII letters only). */
  function LowerChar(c: char): (r: char)
    ensures !IsUpper(r)
    ensures !IsUpper(c) ==> r == c
  {
    if IsUpper(c) then (c as int + 32) as char else c
  }

  /** `str.lower()` (ASCII letters only). */
  function Lower(s: string): (r: string)
    ensures |r| == |s|
    ensures forall i :: 0 <= i < |s| ==> r[i] == LowerChar(s[i])
    decreases |s|
  {
    if s == [] then [] else [LowerChar(s[0])] + Lower(s[1..])
  }

  /** A lower-cased name has no upper-case letter left, so lowering again changes nothing. */
  lemma LowerIdempotent(s: string)
    ensures Lower(Lower(s)) == Lower(s)
  {
    var once := Lower(s);
    assert forall i :: 0 <= i < |once| ==> LowerChar(once[i]) == once[i];
  }

  /** A name without upper-case letters lowers to itself. */
  lemma LowerOfLower(s: string)
    requires forall i :: 0 <= i < |s| ==> !IsUpper(s[i])
    ensures Lower(s) == s
  {
  }

  /**
   * Every key of the keyword table is already lower-case, so a name is
   * accepted iff its lower-case form is one of the twelve keys.
   */
  lemma ValidKeywordsLowerCase()
    ensures forall k :: k in ValidKeywords ==> Lower(k) == k
  {
    forall k | k in ValidKeywords
      ensures Lower(k) == k
    {
      LowerOfLower(k);
    }
  }

  /** `dict.get(key, None)`. */
  function Get(m: map<string, string>, key: string): Option<string> {
    if key in m then Some(m[key]) else None
  }

  /** A table after a `set_*` call, and the value that call returned. */
  datatype Updated = Updated(table: map<string, string>, previous: Option<string>)

  /**
   * The shared body of `set_keyword` and `set_variable`: `None` removes the
   * entry (`pop(key, None)`), anything else stores it; either way the call
   * returns what the key held before.
   */
  function SetEntry(m: map<string, string>, key: string, value: Option<string>): (r: Updated)
    ensures r.previous == Get(m, key)
    ensures Get(r.table, key) == value
    ensures forall k :: k != key ==> Get(r.table, k) == Get(m, k)
  {
    var previous := Get(m, key);
    if value.None? then Updated(m - {key}, previous) else Updated(m[key := value.value], previous)
  }

  /** Setting a key back to what the last `set_*` call returned restores the table. */
  lemma SetEntryUndo(m: map<string, string>, key: string, value: Option<string>)
    ensures var u := SetEntry(m, key, value); SetEntry(u.table, key, u.previous).table == m
  {
    var u := SetEntry(m, key, value);
    var back := SetEntry(u.table, key, u.previous).table;
    assert forall k :: Get(back, k) == Get(m, k);
    assert forall k :: k in back <==> Get(back, k).Some?;
    assert forall k :: k in m <==> Get(m, k).Some?;
    assert back.Keys == m.Keys;
  }

  /** `KeyError` from indexing the keyword table. */
  datatype KeyError = KeyError(key: string)

  /** The key a keyword name stands for: its lower-case form, if the table has it. */
  function KeywordKey(name: string): (r: Result<string, KeyError>)
    ensures r.Success? <==> Lower(name) in ValidKeywords
    ensures r.Success? ==> r.value == Lower(name)
    ensures r.Failure? ==> r.error == KeyError(Lower(name))
  {
    var key := Lower(name);
    if key in ValidKeywords then Success(key) else Failure(KeyError(key))
  }

  /** `set_keyword` on the keyword table. */
  function SetKeywordIn(keywords: map<string, string>, name: string, value: Option<string>)
    : (r: Result<Updated, KeyError>)
    ensures r.Failure? <==> Lower(name) !in ValidKeywords
    ensures r.Failure? ==> r.error == KeyError(Lower(name))
    ensures r.Success? ==> r.value == SetEntry(keywords, Lower(name), value)
  {
    match KeywordKey(name)
    case Failure(e) => Failure(e)
    case Success(key) => Success(SetEntry(keywords, key, value))
  }

  /** `get_keyword` on the keyword table. */
  function GetKeywordIn(keywords: map<string, string>, name: string): (r: Result<Option<string>, KeyError>)
    ensures r.Failure? <==> Lower(name) !in ValidKeywords
    ensures r.Failure? ==> r.error == KeyError(Lower(name))
    ensures r.Success? ==> r.value == Get(keywords, Lower(name))
  {
    match KeywordKey(name)
    case Failure(e) => Failure(e)
    case Success(key) => Success(Get(keywords, key))
  }

  /**
   * Keywords ignore case: after `set_keyword(name, v)`, `get_keyword` under
   * any spelling with the same lower-case form returns `v`, and every other
   * keyword is as it was. An unknown name fails both ways with the same key.
   */
  lemma KeywordRoundTrip(keywords: map<string, string>, name: string, other: string, value: Option<string>)
    ensures SetKeywordIn(keywords, name, value).Failure? <==> GetKeywordIn(keywords, name).Failure?
    ensures Lower(name) in ValidKeywords && Lower(other) == Lower(name) ==>
              GetKeywordIn(SetKeywordIn(keywords, name, value).value.table, other) == Success(value)
    ensures Lower(name) in ValidKeywords && Lower(other) != Lower(name) ==>
              GetKeywordIn(SetKeywordIn(keywords, name, value).value.table, other) == GetKeywordIn(keywords, other)
  {
  }

  /** `set_keyword` returns exactly what `get_keyword` returned before it. */
  lemma SetKeywordReturnsPrevious(keywords: map<string, string>, name: string, value: Option<string>)
    requires Lower(name) in ValidKeywords
    ensures Success(SetKeywordIn(keywords, name, value).value.previous) == GetKeywordIn(keywords, name)
  {
  }

  /** `get_variable` as written: it reads the keyword table. */
  function VariableAsWritten(keywords: map<string, string>, variables: map<string, string>, name: string)
    : Option<string>
  {
    Get(keywords, name)
  }

  /** `get_variable` as evidently intended: it reads the variable table. */
  function VariableIntended(keywords: map<string, string>, variables: map<string, string>, name: string)
    : Option<string>
  {
    Get(variables, name)
  }

  /** With the intended lookup a variable reads back as set, and removing it makes it absent. */
  lemma VariableSetThenGet(keywords: map<string, string>, variables: map<string, string>,
                           name: string, value: Option<string>, other: string)
    ensures VariableIntended(keywords, SetEntry(variables, name, value).table, name) == value
    ensures other != name ==>
              VariableIntended(keywords, SetEntry(variables, name, value).table, other)
              == VariableIntended(keywords, variables, other)
  {
  }

  /** As written, a variable set under a name that is not a keyword reads back as `None`. */
  lemma VariableLostAsWritten(keywords: map<string, string>, variables: map<string, string>,
                              name: string, value: string)
    requires name !in keywords
    ensures VariableAsWritten(keywords, SetEntry(variables, name, Some(value)).table, name) == None
    ensures VariableIntended(keywords, SetEntry(variables, name, Some(value)).table, name) == Some(value)
  {
  }

  /** `PkgConfigPkg`: the keyword and variable tables of one package. */
  class PkgConfigPkg {
    var keywords: map<string, string>
    var variables: map<string, string>

    /** A package holding the given tables. */
    constructor (keywords: map<string, string>, variables: map<string, string>)
      ensures this.keywords == keywords && this.variables == variables
    {
      this.keywords := keywords;
      this.variables := variables;
    }

    /** `set_keyword`: an unknown keyword raises `KeyError` and changes nothing. */
    method SetKeyword(name: string, value: Option<string>) returns (r: Result<Option<string>, KeyError>)
      modifies this
      ensures variables == old(variables)
      ensures SetKeywordIn(old(keywords), name, value).Failure? ==>
                r == Failure(SetKeywordIn(old(keywords), name, value).error) && keywords == old(keywords)
      ensures SetKeywordIn(old(keywords), name, value).Success? ==>
                r == Success(SetKeywordIn(old(keywords), name, value).value.previous)
                && keywords == SetKeywordIn(old(keywords), name, value).value.table
    {
      var key := Lower(name);
      if key !in ValidKeywords {
        return Failure(KeyError(key));
      }
      var previous := Get(keywords, key);
      if value.None? {
        keywords := keywords - {key};
      } else {
        keywords := keywords[key := value.value];
      }
      r := Success(previous);
    }

    /** `get_keyword`. */
    method GetKeyword(name: string) returns (r: Result<Option<string>, KeyError>)
      ensures r == GetKeywordIn(keywords, name)
    {
      var key := Lower(name);
      if key !in ValidKeywords {
        return Failure(KeyError(key));
      }
      r := Success(if key in keywords then Some(keywords[key]) else None);
    }

    /** `set_variable`: any name, no case folding. */
    method SetVariable(name: string, value: Option<string>) returns (previous: Option<string>)
      modifies this
      ensures keywords == old(keywords)
      ensures previous == SetEntry(old(variables), name, value).previous
      ensures variables == SetEntry(old(variables), name, value).table
    {
      previous := Get(variables, name);
      if value.None? {
        variables := variables - {name};
      } else {
        variables := variables[name := value.value];
      }
    }

    /** `get_variable` as written: it looks the name up among the keywords. */
    method GetVariable(name: string) returns (r: Option<string>)
      ensures r == VariableAsWritten(keywords, variables, name)
    {
      r := if name in keywords then Some(keywords[name]) else None;
    }

    /** `get_variable` as evidently intended: it looks the name up among the variables. */
    method GetVariableIntended(name: string) returns (r: Option<string>)
      ensures r == VariableIntended(keywords, variables, name)
    {
      r := if name in variables then Some(variables[name]) else None;
    }
  }

  /**
   * A fresh package, `set_variable("prefix", "/usr")`, then `get_variable("prefix")`:
   * as written the lookup finds nothing; the intended lookup finds "/usr".
   */
  method VariableLookupExhibit() returns (seen: Option<string>, intended: Option<string>)
    ensures seen == None && intended == Some("/usr")
  {
    var p := new PkgConfigPkg(map[], map[]);
    var _ := p.SetVariable("prefix", Some("/usr"));
    seen := p.GetVariable("prefix");
    intended := p.GetVariableIntended("prefix");
  }
}
