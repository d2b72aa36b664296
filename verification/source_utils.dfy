/**
 * Synthesis of the text of a script from a user class: a fixed import preamble, the class text
 * rebuilt from its members' source, an entry-point guard and one method call whose serialized
 * arguments are rehydrated through their registered deserializers. The code as written stops with
 * a `NameError` before the call text; the last section models that.
 */
module SourceUtils {
  import opened Wrappers
  import opened PyErrors
  import opened Text

  // ---------------------------------------------------------------------------------------------
  // Class text.

  /** How the reflection layer classifies a member of the instance. */
  datatype MemberKind = BoundMethod | PlainFunction | OtherAttribute

  /**
   * One member as enumerated from the instance: its name, its kind and its source text.
   * `inspect.getmembers` lists members sorted by name; the model takes the list in whatever
   * order it is given, so every order, the sorted one included, is covered.
   */
  datatype Member = Member(name: string, kind: MemberKind, source: string)

  /** Only bound methods and plain functions have their source copied into the class. */
  predicate Contributes(m: Member) {
    m.kind == BoundMethod || m.kind == PlainFunction
  }

  function ClassHeader(className: string): string {
    "class " + className + ":"
  }

  /** The line buffer of `SourceMaker`: a header line followed by the lines of each added method. */
  datatype SourceMaker = SourceMaker(source: seq<string>)

  /** `SourceMaker(cls_name)`: one line, which joins to the class header. */
  function NewSourceMaker(className: string): (m: SourceMaker)
    ensures |m.source| == 1 && Join("\n", m.source) == ClassHeader(className)
  {
    SourceMaker([ClassHeader(className)])
  }

  /**
   * `add_method(method_str)`: the lines already present stay as they are, the method's lines
   * follow in order, one more line than the method has line breaks, and the joined text grows by
   * a line break and the method text.
   */
  function AddMethod(m: SourceMaker, methodStr: string): (m': SourceMaker)
    ensures |m'.source| == |m.source| + Count(methodStr, '\n') + 1
    ensures m'.source[..|m.source|] == m.source
    ensures forall i :: |m.source| <= i < |m'.source| ==> '\n' !in m'.source[i]
    ensures |m.source| >= 1 ==> Join("\n", m'.source) == Join("\n", m.source) + "\n" + methodStr
  {
    var lines := SplitOn(methodStr, '\n');
    SplitCount(methodStr, '\n');
    JoinLinesAfter(m.source, methodStr, '\n');
    assert (m.source + lines)[..|m.source|] == m.source;
    SourceMaker(m.source + lines)
  }

  /** What one member adds to the class text. */
  function MemberText(m: Member): string {
    if Contributes(m) then "\n" + m.source else ""
  }

  /** Each member's contribution, position by position. */
  function MemberTexts(members: seq<Member>): (r: seq<string>)
    ensures |r| == |members|
    ensures forall i :: 0 <= i < |members| ==> r[i] == MemberText(members[i])
  {
    seq(|members|, i requires 0 <= i < |members| => MemberText(members[i]))
  }

  /** The class text below the header: each contributing member's source after a line break, in order. */
  function ClassBody(members: seq<Member>): string {
    Concat(MemberTexts(members))
  }

  /** One more member extends the class text by that member's text. */
  lemma ClassBodySnoc(members: seq<Member>, k: int)
    requires 0 <= k < |members|
    ensures ClassBody(members[..k + 1]) == ClassBody(members[..k]) + MemberText(members[k])
  {
    assert MemberTexts(members[..k + 1]) == MemberTexts(members[..k]) + [MemberText(members[k])];
    ConcatSnoc(MemberTexts(members[..k]), MemberText(members[k]));
  }

  /** Adding a method to lines that join to `prefix` makes them join to `prefix`, a line break and the method. */
  lemma AddMethodExtends(maker: SourceMaker, header: string, before: string, src: string)
    requires |maker.source| >= 1 && Join("\n", maker.source) == header + before
    ensures Join("\n", AddMethod(maker, src).source) == header + (before + ("\n" + src))
  {
    var joined := Join("\n", maker.source);
    assert joined + "\n" + src == joined + ("\n" + src);
    assert (header + before) + ("\n" + src) == header + (before + ("\n" + src));
  }

  /** One iteration of the member loop keeps the joined lines equal to the header and the text so far. */
  lemma ClassSourceStep(maker: SourceMaker, className: string, members: seq<Member>, k: int)
    requires 0 <= k < |members| && |maker.source| >= 1
    requires Join("\n", maker.source) == ClassHeader(className) + ClassBody(members[..k])
    ensures var next := if Contributes(members[k]) then AddMethod(maker, members[k].source) else maker;
            |next.source| >= 1 && Join("\n", next.source) == ClassHeader(className) + ClassBody(members[..k + 1])
  {
    ClassBodySnoc(members, k);
    if Contributes(members[k]) {
      AddMethodExtends(maker, ClassHeader(className), ClassBody(members[..k]), members[k].source);
    } else {
      assert ClassBody(members[..k]) + "" == ClassBody(members[..k]);
    }
  }

  /**
   * `_make_class_source`: the result is the class header followed by each method or function's
   * source, each after a line break and in the order of `members`, and nothing for any other
   * member.
   */
  method MakeClassSource(className: string, members: seq<Member>) returns (src: string)
    ensures src == ClassHeader(className) + ClassBody(members)
  {
    var maker := NewSourceMaker(className);
    for k := 0 to |members|
      invariant |maker.source| >= 1
      invariant Join("\n", maker.source) == ClassHeader(className) + ClassBody(members[..k])
    {
      ClassSourceStep(maker, className, members, k);
      if Contributes(members[k]) {
        maker := AddMethod(maker, members[k].source);
      }
    }
    assert members[..|members|] == members;
    src := Join("\n", maker.source);
  }

  /** The contributions split around position `i`. */
  lemma MemberTextsAround(members: seq<Member>, i: int)
    requires 0 <= i < |members|
    ensures MemberTexts(members)
            == (MemberTexts(members[..i]) + [MemberText(members[i])]) + MemberTexts(members[i + 1..])
  {
  }

  /** The contributions of two lists one after the other. */
  lemma MemberTextsAppend(xs: seq<Member>, ys: seq<Member>)
    ensures MemberTexts(xs + ys) == MemberTexts(xs) + MemberTexts(ys)
  {
  }

  /** The members of `members` other than the one at `i`. */
  function Without(members: seq<Member>, i: int): seq<Member>
    requires 0 <= i < |members|
  {
    members[..i] + members[i + 1..]
  }

  /** A member that is neither a method nor a function can be dropped without changing the class text. */
  lemma NonCallableContributesNothing(members: seq<Member>, i: int)
    requires 0 <= i < |members| && !Contributes(members[i])
    ensures ClassBody(Without(members, i)) == ClassBody(members)
  {
    var before, after := MemberTexts(members[..i]), MemberTexts(members[i + 1..]);
    var cb, ca := Concat(before), Concat(after);
    MemberTextsAround(members, i);
    MemberTextsAppend(members[..i], members[i + 1..]);
    assert Concat(before + [""]) == cb by {
      ConcatSnoc(before, "");
      assert cb + "" == cb;
    }
    assert ClassBody(members) == cb + ca by {
      ConcatAppend(before + [""], after);
    }
    assert ClassBody(Without(members, i)) == cb + ca by {
      ConcatAppend(before, after);
    }
  }

  /** Every method or function's source appears in the class text right after a line break. */
  lemma ContributedSourceAppears(members: seq<Member>, i: int)
    requires 0 <= i < |members| && Contributes(members[i])
    ensures Contains(ClassBody(members), "\n" + members[i].source)
  {
    var text := "\n" + members[i].source;
    var before, after := MemberTexts(members[..i]), MemberTexts(members[i + 1..]);
    MemberTextsAround(members, i);
    ConcatAppend(before + [text], after);
    ConcatSnoc(before, text);
    ContainsMiddle(Concat(before), text, Concat(after));
  }

  /** The class text ends with a line break when the last member with source text ends with one. */
  lemma ClassBodyEndsLine(members: seq<Member>)
    requires |members| >= 1 && Contributes(members[|members| - 1])
    requires |members[|members| - 1].source| >= 1
    requires members[|members| - 1].source[|members[|members| - 1].source| - 1] == '\n'
    ensures var b := ClassBody(members); |b| >= 1 && b[|b| - 1] == '\n'
  {
    var k := |members| - 1;
    ClassBodySnoc(members, k);
    assert members[..k + 1] == members;
  }

  // ---------------------------------------------------------------------------------------------
  // Script text.

  /** A parameter handed over in serialized form: its name, its location and its type's key. */
  datatype SerializedParam = SerializedParam(name: string, uri: string, typeKey: string)

  /** A parameter passed through as it is, with `value` its `str()` rendering. */
  datatype PassThroughParam = PassThroughParam(name: string, value: string)

  /**
   * The instance's serialization mapping: for each type key a pair of function names; the code
   * renders the name at position 0 as the deserializer.
   */
  type Registry = map<string, (string, string)>

  /** The fixed import lines that open every script. */
  const ImportLines: seq<string> := [
    "import torch",
    "import pandas as pd",
    "from google.cloud.aiplatform import training_util",
    "from google.cloud.aiplatform.experimental.vertex_model.serializers import *"
  ]

  const MainGuard: string := "if __name__ == '__main__':\n"

  /** Every serialized parameter's type key has a registry entry. */
  predicate AllKnown(serialized: seq<SerializedParam>, registry: Registry) {
    forall i :: 0 <= i < |serialized| ==> serialized[i].typeKey in registry
  }

  function SerializedFragment(p: SerializedParam, deserializer: string): string {
    p.name + "=" + deserializer + "(" + p.uri + "), "
  }

  function PassThroughFragment(p: PassThroughParam): string {
    p.name + "=" + p.value + ", "
  }

  /**
   * The keyword arguments of the generated call: one fragment per serialized parameter, naming the
   * deserializer registered for its type, in order, and then one per pass-through parameter.
   */
  function CallFragments(serialized: seq<SerializedParam>, passThrough: seq<PassThroughParam>,
                         registry: Registry): (r: seq<string>)
    requires AllKnown(serialized, registry)
    ensures |r| == |serialized| + |passThrough|
    ensures forall i :: 0 <= i < |serialized| ==>
              r[i] == serialized[i].name + "=" + registry[serialized[i].typeKey].0 + "(" + serialized[i].uri + "), "
    ensures forall i :: |serialized| <= i < |r| ==>
              r[i] == passThrough[i - |serialized|].name + "=" + passThrough[i - |serialized|].value + ", "
  {
    seq(|serialized|, i requires 0 <= i < |serialized| =>
          SerializedFragment(serialized[i], registry[serialized[i].typeKey].0))
    + seq(|passThrough|, j requires 0 <= j < |passThrough| => PassThroughFragment(passThrough[j]))
  }

  /** Everything before the call's arguments: imports, class text, guard, construction, call opening. */
  function ScriptHead(clsSource: string, clsName: string, instanceMethod: string,
                      ctorArgs: string, ctorKwargs: string): string
  {
    Join("\n", ImportLines + [clsSource])
    + MainGuard
    + "\tmodel = " + clsName + "(" + ctorArgs + ", " + ctorKwargs + ")\n"
    + "\tmodel." + instanceMethod + "("
  }

  /** The text of a successful `_make_source`. */
  function ScriptText(clsSource: string, clsName: string, instanceMethod: string,
                      ctorArgs: string, ctorKwargs: string,
                      passThrough: seq<PassThroughParam>, serialized: seq<SerializedParam>,
                      registry: Registry): string
    requires AllKnown(serialized, registry)
  {
    ScriptHead(clsSource, clsName, instanceMethod, ctorArgs, ctorKwargs)
    + Concat(CallFragments(serialized, passThrough, registry))
    + ")\n"
  }

  /** One more serialized parameter adds its fragment at the end of the call text. */
  lemma SerializedSnoc(serialized: seq<SerializedParam>, i: int, registry: Registry)
    requires 0 <= i < |serialized| && AllKnown(serialized[..i + 1], registry)
    ensures AllKnown(serialized[..i], registry)
    ensures Concat(CallFragments(serialized[..i + 1], [], registry))
            == Concat(CallFragments(serialized[..i], [], registry))
               + SerializedFragment(serialized[i], registry[serialized[i].typeKey].0)
  {
    var p := serialized[i];
    assert serialized[..i + 1][i] == p;
    assert CallFragments(serialized[..i + 1], [], registry)
           == CallFragments(serialized[..i], [], registry) + [SerializedFragment(p, registry[p.typeKey].0)];
    ConcatSnoc(CallFragments(serialized[..i], [], registry), SerializedFragment(p, registry[p.typeKey].0));
  }

  /** One more pass-through parameter adds its fragment at the end of the call text. */
  lemma PassThroughSnoc(serialized: seq<SerializedParam>, passThrough: seq<PassThroughParam>, j: int,
                        registry: Registry)
    requires 0 <= j < |passThrough| && AllKnown(serialized, registry)
    ensures Concat(CallFragments(serialized, passThrough[..j + 1], registry))
            == Concat(CallFragments(serialized, passThrough[..j], registry)) + PassThroughFragment(passThrough[j])
  {
    assert CallFragments(serialized, passThrough[..j + 1], registry)
           == CallFragments(serialized, passThrough[..j], registry) + [PassThroughFragment(passThrough[j])];
    ConcatSnoc(CallFragments(serialized, passThrough[..j], registry), PassThroughFragment(passThrough[j]));
  }

  /**
   * The serialized-parameter loop of `_make_source`: the fragments of all serialized parameters in
   * order, or a `KeyError` for the first parameter whose type key the mapping lacks.
   */
  method RenderSerialized(serialized: seq<SerializedParam>, registry: Registry)
    returns (r: Result<string, PyError>)
    ensures r.Err? <==> !AllKnown(serialized, registry)
    ensures r.Err? ==> exists i :: 0 <= i < |serialized| && serialized[i].typeKey !in registry
                                   && r.error == MissingKey(serialized[i].typeKey)
                                   && forall j :: 0 <= j < i ==> serialized[j].typeKey in registry
    ensures r.Ok? ==> r.value == Concat(CallFragments(serialized, [], registry))
  {
    var text := "";
    for i := 0 to |serialized|
      invariant AllKnown(serialized[..i], registry)
      invariant text == Concat(CallFragments(serialized[..i], [], registry))
    {
      var p := serialized[i];
      if p.typeKey !in registry {
        assert forall j :: 0 <= j < i ==> serialized[j].typeKey in registry by {
          forall j | 0 <= j < i ensures serialized[j].typeKey in registry {
            assert serialized[..i][j] == serialized[j];
          }
        }
        return Err(MissingKey(p.typeKey));
      }
      var deserializer := registry[p.typeKey].0;
      SerializedSnoc(serialized, i, registry);
      text := text + SerializedFragment(p, deserializer);
    }
    assert serialized[..|serialized|] == serialized;
    return Ok(text);
  }

  /**
   * The pass-through loop of `_make_source`: continuing from the serialized fragments `start`,
   * one fragment per parameter, in order.
   */
  method RenderPassThrough(serialized: seq<SerializedParam>, passThrough: seq<PassThroughParam>,
                           registry: Registry, start: string)
    returns (text: string)
    requires AllKnown(serialized, registry)
    requires start == Concat(CallFragments(serialized, [], registry))
    ensures text == Concat(CallFragments(serialized, passThrough, registry))
  {
    text := start;
    for j := 0 to |passThrough|
      invariant text == Concat(CallFragments(serialized, passThrough[..j], registry))
    {
      PassThroughSnoc(serialized, passThrough, j, registry);
      text := text + PassThroughFragment(passThrough[j]);
    }
    assert passThrough[..|passThrough|] == passThrough;
  }

  /**
   * `_make_source` with the constructor arguments given as their rendered texts `ctorArgs` and
   * `ctorKwargs`. The mapping lookup fails with a `KeyError` for the first serialized parameter
   * whose type key is missing, and only then; otherwise the script is `ScriptText`, so the text is
   * determined by the inputs alone.
   */
  method MakeSource(clsSource: string, clsName: string, instanceMethod: string,
                    ctorArgs: string, ctorKwargs: string,
                    passThrough: seq<PassThroughParam>, serialized: seq<SerializedParam>,
                    registry: Registry)
    returns (r: Result<string, PyError>)
    ensures r.Err? <==> !AllKnown(serialized, registry)
    ensures r.Err? ==> exists i :: 0 <= i < |serialized| && serialized[i].typeKey !in registry
                                   && r.error == MissingKey(serialized[i].typeKey)
                                   && forall j :: 0 <= j < i ==> serialized[j].typeKey in registry
    ensures r.Ok? ==> r.value == ScriptText(clsSource, clsName, instanceMethod, ctorArgs, ctorKwargs,
                                            passThrough, serialized, registry)
  {
    var head := ScriptHead(clsSource, clsName, instanceMethod, ctorArgs, ctorKwargs);
    var rendered := RenderSerialized(serialized, registry);
    if rendered.Err? {
      return Err(rendered.error);
    }
    var all := RenderPassThrough(serialized, passThrough, registry, rendered.value);
    return Ok(head + all + ")\n");
  }

  /** The import lines, one per line, end with the line break that precedes the class text. */
  lemma PreambleText(clsSource: string)
    ensures Join("\n", ImportLines + [clsSource])
            == ImportLines[0] + "\n" + ImportLines[1] + "\n" + ImportLines[2] + "\n" + ImportLines[3] + "\n" + clsSource
  {
    var xs := ImportLines + [clsSource];
    var x1 := xs[1..];
    var x2 := x1[1..];
    var x3 := x2[1..];
    assert x3[1..] == [clsSource];
    assert Join("\n", x3) == ImportLines[3] + "\n" + clsSource;
    assert Join("\n", x2) == ImportLines[2] + "\n" + Join("\n", x3);
    assert Join("\n", x1) == ImportLines[1] + "\n" + Join("\n", x2);
  }

  /** The script splits into its head, the call's arguments and the closing `")\n"`. */
  lemma ScriptParts(clsSource: string, clsName: string, instanceMethod: string,
                    ctorArgs: string, ctorKwargs: string,
                    passThrough: seq<PassThroughParam>, serialized: seq<SerializedParam>,
                    registry: Registry)
    requires AllKnown(serialized, registry)
    ensures var s := ScriptText(clsSource, clsName, instanceMethod, ctorArgs, ctorKwargs,
                                passThrough, serialized, registry);
            var j := Join("\n", ImportLines + [clsSource]);
            && |j| + |MainGuard| <= |s| - 2
            && s[..|j|] == j
            && s[|j|..|j| + |MainGuard|] == MainGuard
            && s[|s| - 2..] == ")\n"
  {
    var j := Join("\n", ImportLines + [clsSource]);
    var call := "\tmodel = " + clsName + "(" + ctorArgs + ", " + ctorKwargs + ")\n"
                + "\tmodel." + instanceMethod + "(" + Concat(CallFragments(serialized, passThrough, registry));
    var s := ScriptText(clsSource, clsName, instanceMethod, ctorArgs, ctorKwargs, passThrough, serialized, registry);
    assert s == j + MainGuard + call + ")\n";
  }

  /**
   * The script opens with the four import lines and the class text, one per line; the
   * entry-point guard follows the class text directly, with no separator; the call closes with
   * `")\n"`.
   */
  lemma ScriptLayout(clsSource: string, clsName: string, instanceMethod: string,
                     ctorArgs: string, ctorKwargs: string,
                     passThrough: seq<PassThroughParam>, serialized: seq<SerializedParam>,
                     registry: Registry)
    requires AllKnown(serialized, registry)
    ensures var s := ScriptText(clsSource, clsName, instanceMethod, ctorArgs, ctorKwargs,
                                passThrough, serialized, registry);
            var opening := ImportLines[0] + "\n" + ImportLines[1] + "\n" + ImportLines[2] + "\n"
                           + ImportLines[3] + "\n" + clsSource + MainGuard;
            && opening <= s
            && |s| >= 2 && s[|s| - 2..] == ")\n"
  {
    PreambleText(clsSource);
    ScriptParts(clsSource, clsName, instanceMethod, ctorArgs, ctorKwargs, passThrough, serialized, registry);
    var j := Join("\n", ImportLines + [clsSource]);
    var s := ScriptText(clsSource, clsName, instanceMethod, ctorArgs, ctorKwargs, passThrough, serialized, registry);
    assert s[..|j| + |MainGuard|] == j + MainGuard;
  }

  /** When the class text ends with a line break, the entry-point guard starts a line of its own. */
  lemma GuardStartsLine(clsSource: string, clsName: string, instanceMethod: string,
                        ctorArgs: string, ctorKwargs: string,
                        passThrough: seq<PassThroughParam>, serialized: seq<SerializedParam>,
                        registry: Registry)
    requires AllKnown(serialized, registry)
    requires |clsSource| >= 1 && clsSource[|clsSource| - 1] == '\n'
    ensures var s := ScriptText(clsSource, clsName, instanceMethod, ctorArgs, ctorKwargs,
                                passThrough, serialized, registry);
            var k := |Join("\n", ImportLines + [clsSource])|;
            && 1 <= k < |s| && s[k - 1] == '\n'
            && s[k..k + |MainGuard|] == MainGuard
  {
    PreambleText(clsSource);
    ScriptParts(clsSource, clsName, instanceMethod, ctorArgs, ctorKwargs, passThrough, serialized, registry);
    var j := Join("\n", ImportLines + [clsSource]);
    var s := ScriptText(clsSource, clsName, instanceMethod, ctorArgs, ctorKwargs, passThrough, serialized, registry);
    assert j[|j| - 1] == '\n';
    assert s[|j| - 1] == s[..|j|][|j| - 1];
  }

  // ---------------------------------------------------------------------------------------------
  // The code as written.

  /** The parameters of `_make_source`. */
  const MakeSourceParams: set<string> :=
    {"cls_source", "cls_name", "instance_method", "pass_through_params", "param_name_to_serialized_info", "obj"}

  /**
   * The names local to `_make_source`: Python makes a name local to a function when the function
   * binds it anywhere, as a parameter, an assignment target or a loop variable.
   */
  const MakeSourceLocals: set<string> :=
    MakeSourceParams
    + {"src", "class_args", "class_args_arg", "class_args_kwarg", "parameter_name", "parameter_uri",
       "parameter_type", "deserializer", "parameter_value"}

  /** The module's globals: its imports, its definitions and the attributes every module has. */
  const ModuleGlobals: set<string> :=
    {"inspect", "Any", "SourceMaker", "_make_class_source", "_make_source",
     "__name__", "__doc__", "__file__", "__package__", "__loader__", "__spec__", "__builtins__", "__cached__"}

  /**
   * Python's lookup of `name` inside `_make_source`, when the names in `ready` hold values. A
   * local name must already be assigned, otherwise `UnboundLocalError` (a `NameError`). Any other
   * name must be a global, otherwise `NameError`.
   */
  function LookUp(name: string, ready: set<string>): Option<PyError> {
    if name in MakeSourceLocals then
      if name in ready then None
      else Some(PyError(Subclass("UnboundLocalError", NameError),
                        "local variable '" + name + "' referenced before assignment"))
    else if name in ModuleGlobals then None
    else Some(PyError(NameError, "name '" + name + "' is not defined"))
  }

  /** How far the code as written gets: the text `src` holds and the error raised, if any. */
  datatype Halted = Halted(text: string, raised: Option<PyError>)

  /**
   * `_make_source` as written, up to line 81. Lines 67-78 build the preamble and append the
   * entry-point guard. Line 81 then evaluates `inspect.signature(...).bind(*args, **kwargs)`, which
   * looks up `args` and then `kwargs` while only the parameters and `src` are assigned. A
   * `raised` of `None` would mean the run went past line 81; the text after that is `MakeSource`'s.
   */
  function MakeSourceAsWritten(clsSource: string, clsName: string, instanceMethod: string,
                               passThrough: seq<PassThroughParam>, serialized: seq<SerializedParam>,
                               registry: Registry): (r: Halted)
    ensures r.text == ImportLines[0] + "\n" + ImportLines[1] + "\n" + ImportLines[2] + "\n"
                      + ImportLines[3] + "\n" + clsSource + MainGuard
    ensures r.raised.Some? ==> IsInstanceOf(r.raised.value.kind, NameError)
  {
    PreambleText(clsSource);
    var src := Join("\n", ImportLines + [clsSource]) + MainGuard;
    var ready := MakeSourceParams + {"src"};
    match LookUp("args", ready)
    case Some(err) => Halted(src, Some(err))
    case None => Halted(src, LookUp("kwargs", ready))
  }

  /** At line 81 `args` is neither local nor global. */
  lemma ArgsUndefined()
    ensures LookUp("args", MakeSourceParams + {"src"}) == Some(PyError(NameError, "name 'args' is not defined"))
  {
    assert "args" !in MakeSourceLocals && "args" !in ModuleGlobals;
    assert "name '" + "args" + "' is not defined" == "name 'args' is not defined";
  }

  /** The preamble and the guard are a proper prefix of the script. */
  lemma GuardedPreamblePrefix(clsSource: string, clsName: string, instanceMethod: string,
                              ctorArgs: string, ctorKwargs: string,
                              passThrough: seq<PassThroughParam>, serialized: seq<SerializedParam>,
                              registry: Registry)
    requires AllKnown(serialized, registry)
    ensures var s := ScriptText(clsSource, clsName, instanceMethod, ctorArgs, ctorKwargs,
                                passThrough, serialized, registry);
            var h := Join("\n", ImportLines + [clsSource]) + MainGuard;
            h <= s && |h| < |s|
  {
    ScriptParts(clsSource, clsName, instanceMethod, ctorArgs, ctorKwargs, passThrough, serialized, registry);
    var j := Join("\n", ImportLines + [clsSource]);
    var s := ScriptText(clsSource, clsName, instanceMethod, ctorArgs, ctorKwargs, passThrough, serialized, registry);
    assert s[..|j| + |MainGuard|] == j + MainGuard;
  }

  /**
   * As written, every call raises `NameError` for `args` at line 81. By then `src` holds the
   * preamble and the guard, a proper prefix of the script the corrected code produces: no
   * construction line and no call text exist.
   */
  lemma MakeSourceAsWrittenAlwaysRaises(clsSource: string, clsName: string, instanceMethod: string,
                                        ctorArgs: string, ctorKwargs: string,
                                        passThrough: seq<PassThroughParam>, serialized: seq<SerializedParam>,
                                        registry: Registry)
    ensures var h := MakeSourceAsWritten(clsSource, clsName, instanceMethod, passThrough, serialized, registry);
            && h.raised == Some(PyError(NameError, "name 'args' is not defined"))
            && h.text == Join("\n", ImportLines + [clsSource]) + MainGuard
            && (AllKnown(serialized, registry) ==>
                  var s := ScriptText(clsSource, clsName, instanceMethod, ctorArgs, ctorKwargs,
                                      passThrough, serialized, registry);
                  h.text <= s && |h.text| < |s|)
  {
    ArgsUndefined();
    if AllKnown(serialized, registry) {
      GuardedPreamblePrefix(clsSource, clsName, instanceMethod, ctorArgs, ctorKwargs, passThrough, serialized, registry);
    }
  }
}
