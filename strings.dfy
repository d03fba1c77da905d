/**
 * The string handling around plugin loading: `ReplaceAll`, the split of an
 * exported method's function name at its first dot (`GenerateMethodExport`),
 * the validation of a plugin's entry point (`OnPluginLoad`) and the
 * `plugify.pps.` module-name parse (`ResolveRequiredModule`).
 */
module Strings {
  import opened Python

  // ---- Searching ----

  /** The pattern occurs in s at index i. */
  predicate IsAt(s: string, pat: string, i: nat)
  {
    i + |pat| <= |s| && s[i..i + |pat|] == pat
  }

  /** `std::string::find(pat, pos)`: the first occurrence at or after pos, if any. */
  function Find(s: string, pat: string, pos: nat): (r: Option<nat>)
    requires |pat| > 0
    ensures r.Some? ==> pos <= r.value && IsAt(s, pat, r.value)
    ensures r.Some? ==> forall j :: pos <= j < r.value ==> !IsAt(s, pat, j)
    ensures r.NoValue? ==> forall j :: pos <= j ==> !IsAt(s, pat, j)
    decreases |s| - pos
  {
    if pos + |pat| > |s| then NoValue
    else if IsAt(s, pat, pos) then Some(pos)
    else Find(s, pat, pos + 1)
  }

  /** `find(c)` on one character: the first index holding c, if any. */
  function FirstIndexOf(s: string, c: char): (r: Option<nat>)
    ensures r.Some? ==> r.value < |s| && s[r.value] == c && forall j :: 0 <= j < r.value ==> s[j] != c
    ensures r.NoValue? ==> forall j :: 0 <= j < |s| ==> s[j] != c
  {
    if |s| == 0 then NoValue
    else if s[0] == c then Some(0)
    else
      match FirstIndexOf(s[1..], c)
      case NoValue => NoValue
      case Some(i) => Some(i + 1)
  }

  /** `find_last_of(c)`: the last index holding c, if any. */
  function LastIndexOf(s: string, c: char): (r: Option<nat>)
    ensures r.Some? ==> r.value < |s| && s[r.value] == c && forall j :: r.value < j < |s| ==> s[j] != c
    ensures r.NoValue? ==> forall j :: 0 <= j < |s| ==> s[j] != c
  {
    if |s| == 0 then NoValue
    else if s[|s| - 1] == c then Some(|s| - 1)
    else LastIndexOf(s[..|s| - 1], c)
  }

  // ---- ReplaceAll ----

  /**
   * Every occurrence of `from`, found left to right and never overlapping,
   * replaced by `to`; text that `to` brings in is not searched again.
   */
  function Replaced(s: string, from: string, to: string): (r: string)
    requires |from| > 0
    ensures |to| == |from| ==> |r| == |s|
    decreases |s|
  {
    if |s| < |from| then s
    else if s[..|from|] == from then
      to + Replaced(s[|from|..], from, to)
    else
      [s[0]] + Replaced(s[1..], from, to)
  }

  /** Occurrences in a tail are occurrences in the whole string, shifted. */
  lemma TailOccurrences(r: string, from: string, pos: nat, k: nat)
    requires |from| > 0 && pos <= |r|
    requires forall j :: pos <= j < pos + k ==> !IsAt(r, from, j)
    ensures forall j :: 0 <= j < k ==> !IsAt(r[pos..], from, j)
  {
    forall j | 0 <= j < k
      ensures !IsAt(r[pos..], from, j)
    {
      assert !IsAt(r, from, pos + j);
      if j + |from| <= |r| - pos {
        assert r[pos..][j..j + |from|] == r[pos + j..pos + j + |from|];
      }
    }
  }

  /** A string that does not start with `from` keeps its first character. */
  lemma ReplacedFirst(s: string, from: string, to: string)
    requires |from| > 0 && |s| > 0 && !IsAt(s, from, 0)
    ensures Replaced(s, from, to) == [s[0]] + Replaced(s[1..], from, to)
  {
    if |s| < |from| {
      assert s == [s[0]] + s[1..];
    }
  }

  /** Two splits of a string glued together. */
  lemma Glue(a: string, b: string, c: string, p: string, q: string)
    requires p == b + q && a + b == c
    ensures a + p == c + q
  {
  }

  /** Text before the first occurrence comes through unchanged. */
  lemma {:induction false} ReplacedSkips(s: string, from: string, to: string, k: nat)
    requires |from| > 0 && k <= |s|
    requires forall j :: 0 <= j < k ==> !IsAt(s, from, j)
    ensures Replaced(s, from, to) == s[..k] + Replaced(s[k..], from, to)
  {
    if k > 0 {
      ReplacedFirst(s, from, to);
      TailOccurrences(s, from, 1, k - 1);
      ReplacedSkips(s[1..], from, to, k - 1);
      assert s[1..][..k - 1] == s[1..k];
      assert s[1..][k - 1..] == s[k..];
      assert [s[0]] + s[1..k] == s[..k];
      Glue([s[0]], s[1..k], s[..k], Replaced(s[1..], from, to), Replaced(s[k..], from, to));
    }
  }

  /** A string with no occurrence of `from` comes through unchanged. */
  lemma NoOccurrenceUnchanged(s: string, from: string, to: string)
    requires |from| > 0
    requires forall j :: 0 <= j < |s| ==> !IsAt(s, from, j)
    ensures Replaced(s, from, to) == s
  {
    ReplacedSkips(s, from, to, |s|);
    assert s[..|s|] == s;
  }

  /** What the loop has done so far, and what is left, at position pos of r. */
  function Progress(r: string, from: string, to: string, pos: nat): string
    requires |from| > 0 && pos <= |r|
  {
    r[..pos] + Replaced(r[pos..], from, to)
  }

  /** A string that starts with `from` starts its replacement with `to`. */
  lemma ReplacedAtStart(s: string, from: string, to: string)
    requires |from| > 0 && IsAt(s, from, 0)
    ensures Replaced(s, from, to) == to + Replaced(s[|from|..], from, to)
  {
    assert s[..|from|] == s[0..|from|];
  }

  /** The text between pos and the next occurrence, at i, comes through unchanged. */
  lemma TailSkips(r: string, from: string, to: string, pos: nat, i: nat)
    requires |from| > 0 && pos <= i <= |r|
    requires forall j :: pos <= j < i ==> !IsAt(r, from, j)
    ensures Replaced(r[pos..], from, to) == r[pos..i] + Replaced(r[i..], from, to)
  {
    var t := r[pos..];
    TailOccurrences(r, from, pos, i - pos);
    ReplacedSkips(t, from, to, i - pos);
    assert t[i - pos..] == r[i..];
    assert t[..i - pos] == r[pos..i];
  }

  /** The occurrence at i is replaced. */
  lemma TailAt(r: string, from: string, to: string, i: nat)
    requires |from| > 0 && IsAt(r, from, i)
    ensures Replaced(r[i..], from, to) == to + Replaced(r[i + |from|..], from, to)
  {
    var u := r[i..];
    assert u[0..|from|] == r[i..i + |from|];
    ReplacedAtStart(u, from, to);
    assert u[|from|..] == r[i + |from|..];
  }

  /** Up to the occurrence at i, nothing is replaced. */
  lemma ProgressSkips(r: string, from: string, to: string, pos: nat, i: nat)
    requires |from| > 0 && pos <= i && IsAt(r, from, i)
    requires forall j :: pos <= j < i ==> !IsAt(r, from, j)
    ensures Progress(r, from, to, pos) == r[..i] + to + Replaced(r[i + |from|..], from, to)
  {
    TailSkips(r, from, to, pos, i);
    TailAt(r, from, to, i);
    assert r[..pos] + r[pos..i] == r[..i];
    Glue(r[..pos], r[pos..i], r[..i], Replaced(r[pos..], from, to), Replaced(r[i..], from, to));
    Glue(r[..i], to, r[..i] + to, Replaced(r[i..], from, to), Replaced(r[i + |from|..], from, to));
  }

  /** After the replacement at i the loop stands right after the inserted text. */
  lemma ProgressAfter(r: string, from: string, to: string, i: nat)
    requires |from| > 0 && IsAt(r, from, i)
    ensures var r' := r[..i] + to + r[i + |from|..];
      i + |to| <= |r'| && Progress(r', from, to, i + |to|) == r[..i] + to + Replaced(r[i + |from|..], from, to)
  {
    var r' := r[..i] + to + r[i + |from|..];
    assert r'[..i + |to|] == r[..i] + to;
    assert r'[i + |to|..] == r[i + |from|..];
  }

  /** Once no occurrence is left at or after pos, the rest of the string stays as it is. */
  lemma ProgressDone(r: string, from: string, to: string, pos: nat)
    requires |from| > 0 && pos <= |r|
    requires forall j :: pos <= j ==> !IsAt(r, from, j)
    ensures Progress(r, from, to, pos) == r
  {
    TailOccurrences(r, from, pos, |r| - pos);
    ReplacedSkips(r[pos..], from, to, |r| - pos);
    assert r[pos..][..|r| - pos] == r[pos..];
    assert r[pos..][|r| - pos..] == [];
    assert r[..pos] + r[pos..] == r;
  }

  /** `ReplaceAll`: the string is edited in place, the search resuming after each inserted `to`. */
  method ReplaceAll(str: string, from: string, to: string) returns (r: string)
    requires |from| > 0
    ensures r == Replaced(str, from, to)
  {
    r := str;
    var pos: nat := 0;
    var found := Find(r, from, pos);
    assert r[..0] == [] && r[0..] == r;
    while found.Some?
      invariant pos <= |r|
      invariant found == Find(r, from, pos)
      invariant Progress(r, from, to, pos) == Replaced(str, from, to)
      decreases |r| - pos
    {
      var i := found.value;
      ProgressSkips(r, from, to, pos, i);
      ProgressAfter(r, from, to, i);
      r := r[..i] + to + r[i + |from|..];
      pos := i + |to|;
      found := Find(r, from, pos);
    }
    ProgressDone(r, from, to, pos);
  }

  /** Replacing one character by one character maps every position on its own. */
  lemma {:induction false} ReplaceCharIsMap(s: string, c: char, d: char)
    ensures |Replaced(s, [c], [d])| == |s|
    ensures forall i :: 0 <= i < |s| ==> Replaced(s, [c], [d])[i] == if s[i] == c then d else s[i]
    decreases |s|
  {
    if |s| > 0 {
      ReplaceCharIsMap(s[1..], c, d);
      assert s[..1] == [s[0]];
      var r := Replaced(s, [c], [d]);
      assert r == [if s[0] == c then d else s[0]] + Replaced(s[1..], [c], [d]);
    }
  }

  // ---- GenerateMethodExport: class and method name ----

  /** A function name split at its first dot: class name and method name, or no class. */
  datatype FunctionName = FunctionName(className: string, methodName: string)

  function SplitFirstDot(funcName: string): (r: FunctionName)
    ensures '.' !in r.className
    ensures '.' in funcName ==> funcName == r.className + "." + r.methodName
    ensures '.' !in funcName ==> r == FunctionName("", funcName)
  {
    match FirstIndexOf(funcName, '.')
    case Some(pos) =>
      assert funcName == funcName[..pos] + "." + funcName[pos + 1..];
      FunctionName(funcName[..pos], funcName[pos + 1..])
    case NoValue => FunctionName("", funcName)
  }

  /**
   * The split takes the class name from before the first dot and leaves any
   * later dots in the method name; a name without a dot is a plain function.
   */
  lemma SplitFirstDotParts(funcName: string)
    ensures var r := SplitFirstDot(funcName);
      '.' !in r.className &&
      (r.className == "" && r.methodName == funcName <==> '.' !in funcName) &&
      ('.' in funcName ==> funcName == r.className + "." + r.methodName)
  {
    var r := SplitFirstDot(funcName);
    match FirstIndexOf(funcName, '.')
    case Some(pos) =>
      assert funcName == funcName[..pos] + "." + funcName[pos + 1..];
      assert |r.methodName| < |funcName|;
    case NoValue =>
  }

  /** Joining a class name without dots to a method name and splitting again gives both back. */
  lemma SplitJoin(className: string, methodName: string)
    requires '.' !in className
    ensures SplitFirstDot(className + "." + methodName) == FunctionName(className, methodName)
  {
    var s := className + "." + methodName;
    assert s[|className|] == '.';
    assert forall j :: 0 <= j < |className| ==> s[j] == className[j];
    var pos := FirstIndexOf(s, '.');
    assert pos == Some(|className|);
    assert s[..|className|] == className;
    assert s[|className| + 1..] == methodName;
  }

  /** What the interpreter answers while a method export is looked up. */
  datatype ExportEnv = ExportEnv(
    dict: map<string, PyObj>,          // the plugin module's dictionary
    attr: (PyObj, string) -> Option<PyObj>, // `PyObject_GetAttrString` on a class
    isStatic: PyObj -> bool,           // `IsStaticMethod`
    bind: PyObj -> Option<PyObj>)      // `PyMethod_New` on the plugin instance

  /** What compiling the export's native wrapper produced. */
  datatype Jit = JitOk | JitFailed(reason: string)

  function NotFound(name: string, funcName: string): string
  {
    name + " (not found '" + funcName + "' in module)"
  }

  function NotFunction(name: string, funcName: string): string
  {
    name + " ('" + funcName + "' not function type)"
  }

  function BindFail(name: string): string
  {
    name + " (instance bind fail)"
  }

  function JitError(name: string, reason: string): string
  {
    name + " (jit error: " + reason + ")"
  }

  /** The export lookup without the wrapper compilation: the callable, or the error message. */
  function ExportTarget(env: ExportEnv, name: string, funcName: string): (r: Result<PyObj>)
    ensures r.Err? ==> r.error.kind == NoException
    ensures r.Err? ==> r.error.msg in {NotFound(name, funcName), NotFunction(name, funcName), BindFail(name)}
  {
    var n := SplitFirstDot(funcName);
    var isMethod := n.className != "";
    var found :=
      if isMethod then (if n.className in env.dict then env.attr(env.dict[n.className], n.methodName) else NoValue)
      else (if n.methodName in env.dict then Some(env.dict[n.methodName]) else NoValue);
    if found.NoValue? then Err(PyError(NoException, NotFound(name, funcName)))
    else if !found.value.body.CallableBody? then Err(PyError(NoException, NotFunction(name, funcName)))
    else if isMethod && !env.isStatic(found.value) then
      match env.bind(found.value)
      case NoValue => Err(PyError(NoException, BindFail(name)))
      case Some(b) => Ok(b)
    else Ok(found.value)
  }

  /**
   * `GenerateMethodExport`: the Python callable a method exports, wrapped
   * by the JIT, or the error message the load reports.
   */
  function MethodExport(env: ExportEnv, name: string, funcName: string, jit: Jit): (r: Result<PyObj>)
    ensures var n := SplitFirstDot(funcName);
      n.className == "" ==>
        (r.Ok? <==> jit.JitOk? && n.methodName in env.dict && env.dict[n.methodName].body.CallableBody?) &&
        (r.Ok? ==> r.value == env.dict[n.methodName])
    ensures var n := SplitFirstDot(funcName);
      n.className != "" ==>
        (r.Ok? <==> (jit.JitOk? && n.className in env.dict &&
          var f := env.attr(env.dict[n.className], n.methodName);
          f.Some? && f.value.body.CallableBody? && (env.isStatic(f.value) || env.bind(f.value).Some?))) &&
        (r.Ok? ==> var f := env.attr(env.dict[n.className], n.methodName).value;
          r.value == if env.isStatic(f) then f else env.bind(f).value)
    ensures r.Err? ==> r.error.kind == NoException
    ensures jit.JitFailed? && ExportTarget(env, name, funcName).Ok? ==> r == Err(PyError(NoException, JitError(name, jit.reason)))
    ensures r.Ok? ==> r == ExportTarget(env, name, funcName)
    ensures ExportTarget(env, name, funcName).Err? ==> r == ExportTarget(env, name, funcName)
  {
    match ExportTarget(env, name, funcName)
    case Err(e) => Err(e)
    case Ok(f) =>
      match jit
      case JitFailed(s) => Err(PyError(NoException, JitError(name, s)))
      case JitOk => Ok(f)
  }

  /** A function name without a dot exports the module-level callable of that name, unbound. */
  lemma PlainFunctionExport(env: ExportEnv, name: string, funcName: string)
    requires '.' !in funcName
    ensures var r := ExportTarget(env, name, funcName);
      (funcName !in env.dict ==> r == Err(PyError(NoException, NotFound(name, funcName)))) &&
      (funcName in env.dict && env.dict[funcName].body.CallableBody? ==> r == Ok(env.dict[funcName])) &&
      (funcName in env.dict && !env.dict[funcName].body.CallableBody? ==> r == Err(PyError(NoException, NotFunction(name, funcName))))
  {
    SplitFirstDotParts(funcName);
  }

  /** `Class.method` exports the class attribute, bound to the plugin instance unless it is a static method. */
  lemma ClassMethodExport(env: ExportEnv, name: string, className: string, methodName: string)
    requires '.' !in className && className != ""
    ensures var r := ExportTarget(env, name, className + "." + methodName);
      (className !in env.dict ==> r == Err(PyError(NoException, NotFound(name, className + "." + methodName)))) &&
      (className in env.dict ==>
        var f := env.attr(env.dict[className], methodName);
        (f.NoValue? ==> r.Err?) &&
        (f.Some? && f.value.body.CallableBody? && env.isStatic(f.value) ==> r == Ok(f.value)) &&
        (f.Some? && f.value.body.CallableBody? && !env.isStatic(f.value) ==>
          r == (if env.bind(f.value).Some? then Ok(env.bind(f.value).value) else Err(PyError(NoException, BindFail(name))))))
  {
    SplitJoin(className, methodName);
  }

  // ---- OnPluginLoad: the entry point ----

  /** An entry point split into the dotted module path and the class name. */
  datatype EntryPoint = EntryPoint(modulePath: string, className: string)

  const EmptyEntry := "Incorrect entry point: empty"
  const SlashEntry := "Incorrect entry point: contains '/' or '\\'"
  const NoDotEntry := "Incorrect entry point: not have any dot '.' character"
  const NoClassEntry := "Incorrect entry point: empty class name part"
  const NoModuleEntry := "Incorrect entry point: empty module path part"

  /** An error message or a value. */
  datatype Checked<T> = Accepted(value: T) | Rejected(msg: string)

  predicate HasSlash(s: string)
  {
    exists i :: 0 <= i < |s| && (s[i] == '/' || s[i] == '\\')
  }

  /** `OnPluginLoad`'s checks, in their order: the module path is before the last dot, the class after it. */
  function ParseEntryPoint(entry: string): (r: Checked<EntryPoint>)
    ensures r.Accepted? ==> entry == r.value.modulePath + "." + r.value.className
    ensures r.Accepted? ==> r.value.modulePath != "" && r.value.className != "" && '.' !in r.value.className
    ensures r.Accepted? ==> !HasSlash(entry)
    ensures entry == "" ==> r == Rejected(EmptyEntry)
    ensures entry != "" && HasSlash(entry) ==> r == Rejected(SlashEntry)
    ensures r == Rejected(NoDotEntry) <==> entry != "" && !HasSlash(entry) && '.' !in entry
    ensures r == Rejected(NoClassEntry) <==> entry != "" && !HasSlash(entry) && entry[|entry| - 1] == '.'
    ensures r == Rejected(NoModuleEntry) <==> (entry != "" && !HasSlash(entry) && entry[|entry| - 1] != '.' &&
      entry[0] == '.' && forall j :: 0 < j < |entry| ==> entry[j] != '.')
  {
    if entry == "" then Rejected(EmptyEntry)
    else if HasSlash(entry) then Rejected(SlashEntry)
    else
      match LastIndexOf(entry, '.')
      case NoValue => Rejected(NoDotEntry)
      case Some(dot) =>
        var className := entry[dot + 1..];
        var modulePath := entry[..dot];
        if className == "" then Rejected(NoClassEntry)
        else if modulePath == "" then Rejected(NoModuleEntry)
        else
          assert entry == modulePath + "." + className;
          assert forall j :: 0 <= j < |className| ==> className[j] == entry[dot + 1 + j];
          Accepted(EntryPoint(modulePath, className))
  }

  /** Every well-formed entry point is accepted and split back into its two parts. */
  lemma ParseEntryPointAccepts(modulePath: string, className: string)
    requires modulePath != "" && className != "" && '.' !in className
    requires !HasSlash(modulePath + "." + className)
    ensures ParseEntryPoint(modulePath + "." + className) == Accepted(EntryPoint(modulePath, className))
  {
    var entry := modulePath + "." + className;
    var dot := |modulePath|;
    assert entry[dot] == '.';
    forall j | dot < j < |entry|
      ensures entry[j] != '.'
    {
      assert entry[j] == className[j - dot - 1];
    }
    var last := LastIndexOf(entry, '.');
    assert last == Some(dot);
    assert entry[dot + 1..] == className;
    assert entry[..dot] == modulePath;
  }

  /** The entry point's dots that the module path keeps are the ones `ReplaceAll` turns into path separators. */
  lemma ModuleFileHasNoDots(entry: string, sep: char)
    requires ParseEntryPoint(entry).Accepted? && sep != '.'
    ensures var p := Replaced(ParseEntryPoint(entry).value.modulePath, ".", [sep]);
      '.' !in p && |p| == |ParseEntryPoint(entry).value.modulePath|
  {
    var m := ParseEntryPoint(entry).value.modulePath;
    ReplaceCharIsMap(m, '.', sep);
    var p := Replaced(m, ".", [sep]);
    forall i | 0 <= i < |p|
      ensures p[i] != '.'
    {
    }
  }

  // ---- ResolveRequiredModule ----

  const PpsPrefix := "plugify.pps."

  /**
   * The plugin a required module names: for `plugify.pps.<plugin>[.<rest>]`
   * with something after the prefix, the part up to the next dot.
   */
  function RequiredPlugin(moduleName: string): (r: Option<string>)
    ensures r.Some? ==> |moduleName| > |PpsPrefix| && moduleName[..|PpsPrefix|] == PpsPrefix
    ensures r.Some? ==> '.' !in r.value
    ensures r.Some? ==> var rest := moduleName[|PpsPrefix|..];
      (exists k :: 0 <= k <= |rest| && rest[..k] == r.value && (k == |rest| || rest[k] == '.'))
    ensures (|moduleName| > |PpsPrefix| && moduleName[..|PpsPrefix|] == PpsPrefix) ==> r.Some?
  {
    if |moduleName| > |PpsPrefix| && moduleName[..|PpsPrefix|] == PpsPrefix then
      var rest := moduleName[|PpsPrefix|..];
      match FirstIndexOf(rest, '.')
      case Some(pos) =>
        assert '.' !in rest[..pos] by {
          forall j | 0 <= j < pos ensures rest[..pos][j] != '.' { }
        }
        Some(rest[..pos])
      case NoValue =>
        assert rest[..|rest|] == rest;
        Some(rest)
    else NoValue
  }

  /** What `ResolveRequiredModule` does for a module name. */
  datatype Resolution =
    | NotRequired                 // not a `plugify.pps.` plugin module
    | CreateModule(plugin: string) // the plugin is loaded: its module is created
    | Placeholder(key: string)    // otherwise an empty module is stored under this name

  /**
   * The name the placeholder is created and stored under, as written: the
   * plugin name is a view into the module name, and its `data()` pointer is
   * passed as a C string, which runs on to the end of the module name.
   */
  function PlaceholderKeyAsWritten(moduleName: string): (key: string)
    requires |moduleName| >= |PpsPrefix|
    ensures moduleName == moduleName[..|PpsPrefix|] + key
  {
    moduleName[|PpsPrefix|..]
  }

  /** For `plugify.pps.a.b` the placeholder is stored under `a.b`, not under the plugin name `a`. */
  lemma PlaceholderKeyAsWrittenKeepsRest()
    ensures RequiredPlugin("plugify.pps.a.b") == Some("a")
    ensures PlaceholderKeyAsWritten("plugify.pps.a.b") == "a.b"
  {
    var m := "plugify.pps.a.b";
    assert m[..|PpsPrefix|] == PpsPrefix;
    assert m[|PpsPrefix|..] == "a.b";
    assert FirstIndexOf("a.b", '.') == Some(1);
    assert "a.b"[..1] == "a";
  }

  /**
   * `ResolveRequiredModule`, storing the placeholder under the plugin name;
   * `loaded` says whether the provider knows the plugin and it is loaded.
   */
  function ResolveRequired(moduleName: string, loaded: string -> bool): (r: Resolution)
    ensures r.NotRequired? <==> RequiredPlugin(moduleName).NoValue?
    ensures r.CreateModule? ==> r.plugin == RequiredPlugin(moduleName).value && loaded(r.plugin)
    ensures r.Placeholder? ==> r.key == RequiredPlugin(moduleName).value && !loaded(r.key)
  {
    match RequiredPlugin(moduleName)
    case NoValue => NotRequired
    case Some(p) => if loaded(p) then CreateModule(p) else Placeholder(p)
  }

  /** The plugin name is what came after the prefix whenever that holds no dot. */
  lemma RequiredPluginWhole(pluginName: string)
    requires pluginName != "" && '.' !in pluginName
    ensures RequiredPlugin(PpsPrefix + pluginName) == Some(pluginName)
  {
    var m := PpsPrefix + pluginName;
    assert m[..|PpsPrefix|] == PpsPrefix;
    assert m[|PpsPrefix|..] == pluginName;
  }
}
