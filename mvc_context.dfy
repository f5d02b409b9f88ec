/**
 * The MVC context service: from the imports of a Java controller or service
 * file it picks the imported service and domain classes, looks them up
 * (once per import text, through a cache), and lays their descriptions out
 * as prompt text for the language model.
 */
module MvcContext {
  import opened Wrappers
  import opened Text

  /** A looked-up class: its qualified name (absent for anonymous and local classes) and its string form. */
  datatype ClassRef = ClassRef(qualifiedName: Option<string>, text: string)

  /** An import statement, with the text of its reference when it has one. */
  datatype ImportStatement = ImportStatement(reference: Option<string>)

  /** A source file of the project: a Java file with its path and import list (absent when it has none), or any other file. */
  datatype SourceFile =
    | JavaFile(path: string, imports: Option<seq<ImportStatement>>)
    | OtherFile

  /** What the class-context builder is asked about. */
  datatype Element = OfFile(file: SourceFile) | OfClass(cls: ClassRef)

  /** The two regular expressions of lines 17-18. */
  datatype ImportPattern = DomainPattern | ServicePattern

  /** The package segments that mark a domain import. */
  const DomainSegments: seq<string> := ["model", "entity", "domain", "dto"]

  /**
   * `.*\.(model|entity|domain|dto)\..*` matched against the whole text: one
   * of the four words between two periods somewhere, and, since `.` stops at
   * line terminators, no line terminator anywhere.
   */
  predicate DomainMatches(s: string) {
    !HasLineTerminator(s) &&
    (Contains(s, ".model.") || Contains(s, ".entity.") || Contains(s, ".domain.") || Contains(s, ".dto."))
  }

  /** `.*(service|serviceimpl)` matched against the whole text. */
  predicate ServiceMatches(s: string) {
    !HasLineTerminator(s) && (EndsWith(s, "service") || EndsWith(s, "serviceimpl"))
  }

  /** `Regex.matches` of one of the two patterns. */
  predicate PatternMatches(pattern: ImportPattern, s: string) {
    match pattern
    case DomainPattern => DomainMatches(s)
    case ServicePattern => ServiceMatches(s)
  }

  /** The filter at line 37: the import has a reference whose lower-cased text matches. */
  predicate Selects(pattern: ImportPattern, stmt: ImportStatement) {
    stmt.reference.Some? && PatternMatches(pattern, Lowercase(stmt.reference.value))
  }

  /** The domain test is a search for one of the four segments, framed by periods, in a single line. */
  lemma DomainMatchesIffSegment(s: string)
    ensures DomainMatches(s) <==>
      !HasLineTerminator(s) &&
      exists k, i: nat :: 0 <= k < |DomainSegments| && OccursAt(s, "." + DomainSegments[k] + ".", i)
  {
    assert "." + DomainSegments[0] + "." == ".model.";
    assert "." + DomainSegments[1] + "." == ".entity.";
    assert "." + DomainSegments[2] + "." == ".domain.";
    assert "." + DomainSegments[3] + "." == ".dto.";
    ContainsIffOccurs(s, ".model.");
    ContainsIffOccurs(s, ".entity.");
    ContainsIffOccurs(s, ".domain.");
    ContainsIffOccurs(s, ".dto.");
    if exists k, i: nat :: 0 <= k < |DomainSegments| && OccursAt(s, "." + DomainSegments[k] + ".", i) {
      var k, i: nat :| 0 <= k < |DomainSegments| && OccursAt(s, "." + DomainSegments[k] + ".", i);
      assert k == 0 || k == 1 || k == 2 || k == 3;
    }
  }

  /** An import is taken as a service exactly when its one-line text ends, in any case, with `service` or `serviceimpl`. */
  lemma ServiceSelectionIffSuffix(t: string)
    ensures Selects(ServicePattern, ImportStatement(Some(t))) <==>
      !HasLineTerminator(t) && (EndsWith(Lowercase(t), "service") || EndsWith(Lowercase(t), "serviceimpl"))
  {
    LowercaseKeepsLineTerminators(t);
  }

  /** An import is taken as a domain class exactly when its one-line text holds, in any case, a framed domain segment. */
  lemma DomainSelectionIffSegment(t: string)
    ensures Selects(DomainPattern, ImportStatement(Some(t))) <==>
      !HasLineTerminator(t) &&
      exists k, i: nat :: 0 <= k < |DomainSegments| && OccursAt(Lowercase(t), "." + DomainSegments[k] + ".", i)
  {
    LowercaseKeepsLineTerminators(t);
    DomainMatchesIffSegment(Lowercase(t));
  }

  /** Selection ignores case: two imports whose texts agree up to case are selected alike. */
  lemma SelectionIgnoresCase(pattern: ImportPattern, a: string, b: string)
    requires Lowercase(a) == Lowercase(b)
    ensures Selects(pattern, ImportStatement(Some(a))) <==> Selects(pattern, ImportStatement(Some(b)))
  {
  }

  /** An import already in lower case is selected exactly when its text matches as it stands. */
  lemma SelectsLowerCaseText(pattern: ImportPattern, a: string)
    ensures Selects(pattern, ImportStatement(Some(Lowercase(a)))) <==> PatternMatches(pattern, Lowercase(a))
  {
    LowercaseIdempotent(a);
  }

  /** The original-case texts of the selected imports, in import order (lines 36-39). */
  function Selected(imports: seq<ImportStatement>, pattern: ImportPattern): (texts: seq<string>)
    ensures |texts| <= |imports|
    decreases |imports|
  {
    if imports == [] then []
    else
      var last := imports[|imports| - 1];
      Selected(imports[..|imports| - 1], pattern) + (if Selects(pattern, last) then [last.reference.value] else [])
  }

  /** Every selected text is the reference of a selected import, and every selected import contributes its text. */
  lemma {:induction false} SelectedExactly(imports: seq<ImportStatement>, pattern: ImportPattern)
    ensures forall t :: t in Selected(imports, pattern) <==>
      exists j :: 0 <= j < |imports| && Selects(pattern, imports[j]) && imports[j].reference.value == t
    decreases |imports|
  {
    if imports != [] {
      var init := imports[..|imports| - 1];
      SelectedExactly(init, pattern);
      forall t ensures t in Selected(imports, pattern) <==>
        exists j :: 0 <= j < |imports| && Selects(pattern, imports[j]) && imports[j].reference.value == t
      {
        if exists j :: 0 <= j < |imports| && Selects(pattern, imports[j]) && imports[j].reference.value == t {
          var j :| 0 <= j < |imports| && Selects(pattern, imports[j]) && imports[j].reference.value == t;
          if j < |init| {
            assert init[j] == imports[j];
          }
        }
        if t in Selected(init, pattern) {
          var j :| 0 <= j < |init| && Selects(pattern, init[j]) && init[j].reference.value == t;
          assert imports[j] == init[j];
        }
      }
    }
  }

  /** `distinctBy { it.qualifiedName }`: the first class of each qualified name, in order; `seen` holds the names met so far. */
  function DistinctFrom(classes: seq<ClassRef>, seen: set<Option<string>>): (r: seq<ClassRef>)
    decreases |classes|
  {
    if classes == [] then []
    else if classes[0].qualifiedName in seen then DistinctFrom(classes[1..], seen)
    else [classes[0]] + DistinctFrom(classes[1..], seen + {classes[0].qualifiedName})
  }

  function DistinctByName(classes: seq<ClassRef>): seq<ClassRef> {
    DistinctFrom(classes, {})
  }

  /** The filter keeps only classes of the input, and only names not seen before. */
  lemma {:induction false} DistinctFromKeeps(classes: seq<ClassRef>, seen: set<Option<string>>)
    ensures forall i :: 0 <= i < |DistinctFrom(classes, seen)| ==>
      DistinctFrom(classes, seen)[i] in classes && DistinctFrom(classes, seen)[i].qualifiedName !in seen
    decreases |classes|
  {
    if classes != [] {
      var c := classes[0];
      var r := DistinctFrom(classes, seen);
      assert forall x :: x in classes[1..] ==> x in classes;
      if c.qualifiedName in seen {
        DistinctFromKeeps(classes[1..], seen);
        assert r == DistinctFrom(classes[1..], seen);
      } else {
        var seen' := seen + {c.qualifiedName};
        DistinctFromKeeps(classes[1..], seen');
        var rest := DistinctFrom(classes[1..], seen');
        assert r == [c] + rest;
        forall i | 0 <= i < |r| ensures r[i] in classes && r[i].qualifiedName !in seen {
          if i > 0 {
            assert r[i] == rest[i - 1];
          }
        }
      }
    }
  }

  /** The names the filter keeps are pairwise different. */
  lemma {:induction false} DistinctFromUnique(classes: seq<ClassRef>, seen: set<Option<string>>)
    ensures forall i, j :: 0 <= i < j < |DistinctFrom(classes, seen)| ==>
      DistinctFrom(classes, seen)[i].qualifiedName != DistinctFrom(classes, seen)[j].qualifiedName
    decreases |classes|
  {
    if classes != [] {
      var c := classes[0];
      var r := DistinctFrom(classes, seen);
      if c.qualifiedName in seen {
        DistinctFromUnique(classes[1..], seen);
        assert r == DistinctFrom(classes[1..], seen);
      } else {
        var seen' := seen + {c.qualifiedName};
        DistinctFromUnique(classes[1..], seen');
        DistinctFromKeeps(classes[1..], seen');
        var rest := DistinctFrom(classes[1..], seen');
        assert r == [c] + rest;
        forall i, j | 0 <= i < j < |r| ensures r[i].qualifiedName != r[j].qualifiedName {
          assert r[j] == rest[j - 1];
          if i > 0 {
            assert r[i] == rest[i - 1];
          }
        }
      }
    }
  }

  /** Every name of the input not seen before is kept. */
  lemma {:induction false} DistinctFromCovers(classes: seq<ClassRef>, seen: set<Option<string>>)
    ensures forall x :: x in classes && x.qualifiedName !in seen ==>
      exists i :: 0 <= i < |DistinctFrom(classes, seen)| && DistinctFrom(classes, seen)[i].qualifiedName == x.qualifiedName
    decreases |classes|
  {
    if classes != [] {
      var c := classes[0];
      var seen' := if c.qualifiedName in seen then seen else seen + {c.qualifiedName};
      DistinctFromCovers(classes[1..], seen');
      var rest := DistinctFrom(classes[1..], seen');
      var shift := if c.qualifiedName in seen then 0 else 1;
      assert DistinctFrom(classes, seen) == if c.qualifiedName in seen then rest else [c] + rest;
      forall x | x in classes && x.qualifiedName !in seen
        ensures exists i :: 0 <= i < |DistinctFrom(classes, seen)| && DistinctFrom(classes, seen)[i].qualifiedName == x.qualifiedName
      {
        if x.qualifiedName == c.qualifiedName {
          assert DistinctFrom(classes, seen)[0].qualifiedName == x.qualifiedName;
        } else {
          assert x in classes[1..] && x.qualifiedName !in seen';
          var i :| 0 <= i < |rest| && rest[i].qualifiedName == x.qualifiedName;
          assert DistinctFrom(classes, seen)[i + shift] == rest[i];
        }
      }
    }
  }

  /** `i` is the index of the first class of the input that carries its qualified name. */
  predicate FirstOfName(classes: seq<ClassRef>, i: nat) {
    i < |classes| && forall k :: 0 <= k < i ==> classes[k].qualifiedName != classes[i].qualifiedName
  }

  /** Positions one further on. */
  function Shift(idx: seq<nat>): (r: seq<nat>)
    ensures |r| == |idx| && forall i :: 0 <= i < |r| ==> r[i] == idx[i] + 1
  {
    seq(|idx|, i requires 0 <= i < |idx| => idx[i] + 1)
  }

  /** First occurrences in the tail of the input, of names the head does not carry, are first occurrences in the input. */
  lemma ShiftFirsts(classes: seq<ClassRef>, tail: seq<nat>, rest: seq<ClassRef>)
    requires classes != [] && |tail| == |rest|
    requires forall i :: 0 <= i < |tail| ==>
      FirstOfName(classes[1..], tail[i]) && rest[i] == classes[1..][tail[i]] &&
      rest[i].qualifiedName != classes[0].qualifiedName
    ensures forall i :: 0 <= i < |tail| ==> FirstOfName(classes, Shift(tail)[i]) && rest[i] == classes[Shift(tail)[i]]
  {
    var sh := Shift(tail);
    forall i | 0 <= i < |tail| ensures FirstOfName(classes, sh[i]) && rest[i] == classes[sh[i]] {
      var n := sh[i];
      assert classes[n] == classes[1..][tail[i]];
      forall k | 1 <= k < n ensures classes[k].qualifiedName != classes[n].qualifiedName {
        assert classes[k] == classes[1..][k - 1];
      }
    }
  }

  /** The filter keeps, in input order, the first class of each unseen name: `idx` gives their positions. */
  lemma {:induction false} DistinctFromFirsts(classes: seq<ClassRef>, seen: set<Option<string>>)
    returns (idx: seq<nat>)
    ensures |idx| == |DistinctFrom(classes, seen)|
    ensures forall i :: 0 <= i < |idx| ==>
      FirstOfName(classes, idx[i]) && DistinctFrom(classes, seen)[i] == classes[idx[i]]
    ensures forall i, j :: 0 <= i < j < |idx| ==> idx[i] < idx[j]
    decreases |classes|
  {
    if classes == [] {
      idx := [];
    } else {
      var c := classes[0];
      var seen' := if c.qualifiedName in seen then seen else seen + {c.qualifiedName};
      var rest := DistinctFrom(classes[1..], seen');
      var tail := DistinctFromFirsts(classes[1..], seen');
      DistinctFromKeeps(classes[1..], seen');
      assert forall i :: 0 <= i < |rest| ==> rest[i].qualifiedName !in seen';
      ShiftFirsts(classes, tail, rest);
      var shifted := Shift(tail);
      if c.qualifiedName in seen {
        idx := shifted;
      } else {
        assert DistinctFrom(classes, seen) == [c] + rest;
        idx := ConsFirst(classes, shifted, rest);
      }
    }
  }

  /** The first class is the first of its name, so it can lead the positions found further on. */
  lemma ConsFirst(classes: seq<ClassRef>, shifted: seq<nat>, rest: seq<ClassRef>) returns (idx: seq<nat>)
    requires classes != [] && |shifted| == |rest|
    requires forall i :: 0 <= i < |shifted| ==> FirstOfName(classes, shifted[i]) && rest[i] == classes[shifted[i]]
    requires forall i, j :: 0 <= i < j < |shifted| ==> shifted[i] < shifted[j]
    requires forall i :: 0 <= i < |shifted| ==> shifted[i] > 0
    ensures idx == [0] + shifted
    ensures forall i :: 0 <= i < |idx| ==> FirstOfName(classes, idx[i]) && ([classes[0]] + rest)[i] == classes[idx[i]]
    ensures forall i, j :: 0 <= i < j < |idx| ==> idx[i] < idx[j]
  {
    idx := [0] + shifted;
    assert forall i :: 1 <= i < |idx| ==> idx[i] == shifted[i - 1] && ([classes[0]] + rest)[i] == rest[i - 1];
  }

  /**
   * `distinctBy` keeps, in input order, the first class of each qualified
   * name: nothing else, no name twice, and no name lost.
   */
  lemma DistinctByNameSpec(classes: seq<ClassRef>) returns (idx: seq<nat>)
    ensures var r := DistinctByName(classes);
      |idx| == |r| &&
      (forall i :: 0 <= i < |r| ==> FirstOfName(classes, idx[i]) && r[i] == classes[idx[i]]) &&
      (forall i, j :: 0 <= i < j < |r| ==> idx[i] < idx[j]) &&
      (forall i, j :: 0 <= i < j < |r| ==> r[i].qualifiedName != r[j].qualifiedName) &&
      (forall c :: c in classes ==> exists i :: 0 <= i < |r| && r[i].qualifiedName == c.qualifiedName)
  {
    idx := DistinctFromFirsts(classes, {});
    DistinctFromUnique(classes, {});
    DistinctFromCovers(classes, {});
  }

  /** The string forms of the classes, as `joinToString` prints them. */
  function Texts(classes: seq<ClassRef>): (r: seq<string>)
    ensures |r| == |classes| && forall i :: 0 <= i < |r| ==> r[i] == classes[i].text
  {
    seq(|classes|, i requires 0 <= i < |classes| => classes[i].text)
  }

  /** The text of line 50 for a list of models, or for none. */
  function ServiceText(models: Option<seq<ClassRef>>): string {
    match models
    case None => "\nnull\n"
    case Some(ms) => "\n" + Join(Texts(ms), '\n') + "\n"
  }

  /** Between its framing newlines, the service prompt holds exactly the models' string forms, one per line. */
  lemma ServiceTextLines(models: seq<ClassRef>)
    requires models != []
    requires forall i :: 0 <= i < |models| ==> '\n' !in models[i].text
    ensures var p := ServiceText(Some(models));
      |p| >= 2 && p[0] == '\n' && p[|p| - 1] == '\n' && Split(p[1..|p| - 1], '\n') == Texts(models)
  {
    var body := Join(Texts(models), '\n');
    var p := ServiceText(Some(models));
    assert p[1..|p| - 1] == body;
    SplitJoin(Texts(models), '\n');
  }

  /** The line that closes the controller prompt (line 76). */
  function PathLine(path: string): string {
    "//current path: " + path + "\n"
  }

  /** The text of line 76. */
  function ControllerText(classList: seq<string>, path: string): string {
    "\n" + Join(classList, '\n') + "\n//current path: " + path + "\n"
  }

  /** The controller prompt always ends with the file's path line. */
  lemma ControllerTextEndsWithPath(classList: seq<string>, path: string)
    ensures EndsWith(ControllerText(classList, path), "\n" + PathLine(path))
  {
    var p := ControllerText(classList, path);
    var tail := "\n" + PathLine(path);
    assert p == ("\n" + Join(classList, '\n')) + tail;
    assert p[|p| - |tail|..] == tail;
  }

  /** Between the opening newline and the path line, the controller prompt holds the class list, one entry per line. */
  lemma ControllerTextLines(classList: seq<string>, path: string)
    requires classList != []
    requires forall i :: 0 <= i < |classList| ==> '\n' !in classList[i]
    ensures var p := ControllerText(classList, path);
      var tail := "\n" + PathLine(path);
      |p| >= 1 + |tail| && p[0] == '\n' && p[|p| - |tail|..] == tail &&
      Split(p[1..|p| - |tail|], '\n') == classList
  {
    var p := ControllerText(classList, path);
    var tail := "\n" + PathLine(path);
    var body := Join(classList, '\n');
    assert p == "\n" + body + tail;
    assert p[|p| - |tail|..] == tail;
    assert p[1..|p| - |tail|] == body;
    SplitJoin(classList, '\n');
  }

  /** Two controller prompts for one path are equal only when their class lists are. */
  lemma ControllerTextInjective(a: seq<string>, b: seq<string>, path: string)
    requires a != [] && forall i :: 0 <= i < |a| ==> '\n' !in a[i]
    requires b != [] && forall i :: 0 <= i < |b| ==> '\n' !in b[i]
    ensures ControllerText(a, path) == ControllerText(b, path) ==> a == b
  {
    ControllerTextLines(a, path);
    ControllerTextLines(b, path);
  }

  /** The formatted context of an element, or nothing when the builder finds none (line 73). */
  function ContextLine(classContext: Element -> Option<string>, e: Element): string {
    match classContext(e)
    case Some(t) => t
    case None => ""
  }

  /** Line 72-74 as written: the lambda passes `file`, not the class, so every entry is the builder's answer for the file. */
  function ClassListAsWritten(classContext: Element -> Option<string>, file: SourceFile,
                              classes: seq<ClassRef>): (r: seq<string>)
    ensures |r| == |classes|
    ensures forall i :: 0 <= i < |r| ==> r[i] == ContextLine(classContext, OfFile(file))
  {
    seq(|classes|, i requires 0 <= i < |classes| => ContextLine(classContext, OfFile(file)))
  }

  /** As written, the list does not depend on the classes: every entry is the same text. */
  lemma AsWrittenIgnoresClasses(classContext: Element -> Option<string>, file: SourceFile,
                                classes: seq<ClassRef>)
    ensures var r := ClassListAsWritten(classContext, file, classes);
      forall i, j :: 0 <= i < |r| && 0 <= j < |r| ==> r[i] == r[j]
  {
  }

  /** A controller importing one service: as written its entry describes the file, not the service. */
  lemma AsWrittenLosesTheService(classContext: Element -> Option<string>, file: SourceFile, service: ClassRef)
    requires classContext(OfFile(file)) == Some("class FooController")
    requires classContext(OfClass(service)) == Some("class FooService")
    ensures ClassListAsWritten(classContext, file, [service]) == ["class FooController"]
    ensures ClassListAsWritten(classContext, file, [service]) != ClassList(classContext, [service])
  {
    var r := ClassListAsWritten(classContext, file, [service]);
    assert ContextLine(classContext, OfFile(file)) == "class FooController";
    assert r[0] == "class FooController";
    assert ClassList(classContext, [service])[0] == "class FooService";
  }

  /** Lines 72-74 as evidently intended: each entry describes its own class. */
  function ClassList(classContext: Element -> Option<string>, classes: seq<ClassRef>): (r: seq<string>)
    ensures |r| == |classes|
  {
    seq(|classes|, i requires 0 <= i < |classes| => ContextLine(classContext, OfClass(classes[i])))
  }

  /** Entry `i` of the intended list is the context of class `i`, so equal classes give equal entries. */
  lemma ClassListDescribesEachClass(classContext: Element -> Option<string>, classes: seq<ClassRef>)
    ensures var r := ClassList(classContext, classes);
      (forall i :: 0 <= i < |r| ==>
        r[i] == if classContext(OfClass(classes[i])).Some? then classContext(OfClass(classes[i])).value else "") &&
      (forall i, j :: 0 <= i < |r| && 0 <= j < |r| && classes[i] == classes[j] ==> r[i] == r[j])
  {
  }

  /** The controller prompt as evidently intended: each relevant class described by its own context. */
  function IntendedControllerText(classContext: Element -> Option<string>, relevant: seq<ClassRef>, path: string): string {
    ControllerText(ClassList(classContext, relevant), path)
  }

  /** In the intended prompt, line `i` of the class list is the context of relevant class `i`. */
  lemma IntendedPromptListsEachClass(classContext: Element -> Option<string>, relevant: seq<ClassRef>, path: string)
    requires relevant != []
    requires forall i :: 0 <= i < |relevant| ==> '\n' !in ContextLine(classContext, OfClass(relevant[i]))
    ensures var p := IntendedControllerText(classContext, relevant, path);
      var tail := "\n" + PathLine(path);
      var lines := Split(p[1..|p| - |tail|], '\n');
      |p| >= 1 + |tail| && p[0] == '\n' && p[|p| - |tail|..] == tail && |lines| == |relevant| &&
      forall i :: 0 <= i < |lines| ==> lines[i] == ContextLine(classContext, OfClass(relevant[i]))
  {
    ControllerTextLines(ClassList(classContext, relevant), path);
  }

  /** In the example of `AsWrittenLosesTheService`, the prompt as written differs from the intended one. */
  lemma AsWrittenPromptDiffers(classContext: Element -> Option<string>, file: SourceFile, service: ClassRef, path: string)
    requires classContext(OfFile(file)) == Some("class FooController")
    requires classContext(OfClass(service)) == Some("class FooService")
    ensures ControllerText(ClassListAsWritten(classContext, file, [service]), path) !=
      IntendedControllerText(classContext, [service], path)
  {
    AsWrittenLosesTheService(classContext, file, service);
    var a := ClassListAsWritten(classContext, file, [service]);
    var b := ClassList(classContext, [service]);
    assert '\n' !in a[0] && '\n' !in b[0];
    ControllerTextInjective(a, b, path);
  }

  /** The texts a file's imports select for `pattern`; none for anything but a Java file with an import list. */
  function FileSelection(psiFile: Option<SourceFile>, pattern: ImportPattern): seq<string> {
    if psiFile.Some? && psiFile.value.JavaFile? && psiFile.value.imports.Some?
    then Selected(psiFile.value.imports.value, pattern) else []
  }

  /** `MvcContextService`: the class lookup, the class-context builder and the import cache. */
  class MvcContextService {
    /** `javaPsiFacade.findClasses(text, searchScope)`, fixed for the service's lifetime. */
    const findClasses: string -> seq<ClassRef>
    /** `JavaClassContextBuilder().getClassContext(element, false)?.format()`. */
    const classContext: Element -> Option<string>
    /** `importCache` (line 34). */
    var importCache: map<string, seq<ClassRef>>
    /** The texts `findClasses` has been asked about, in order. */
    ghost var lookups: seq<string>

    /** The cache holds what the lookup returned, and the lookup was asked once about each cached text, and about nothing else. */
    ghost predicate Valid()
      reads this
    {
      (forall k :: k in importCache ==> importCache[k] == findClasses(k)) &&
      (forall i, j :: 0 <= i < j < |lookups| ==> lookups[i] != lookups[j]) &&
      (forall k :: k in importCache <==> k in lookups)
    }

    constructor (findClasses: string -> seq<ClassRef>, classContext: Element -> Option<string>)
      ensures this.findClasses == findClasses && this.classContext == classContext
      ensures importCache == map[] && lookups == [] && Valid()
    {
      this.findClasses := findClasses;
      this.classContext := classContext;
      importCache := map[];
      lookups := [];
    }

    /** The classes found for each text, flattened in order. */
    function Found(texts: seq<string>): (r: seq<ClassRef>)
      ensures forall c :: c in r <==> exists t :: t in texts && c in findClasses(t)
      decreases |texts|
    {
      if texts == [] then [] else Found(texts[..|texts| - 1]) + findClasses(texts[|texts| - 1])
    }

    /** What `filterImportByRegex` returns: nothing for an absent import list. */
    function Filtered(imports: Option<seq<ImportStatement>>, pattern: ImportPattern): (r: seq<ClassRef>)
      ensures imports.None? ==> r == []
      ensures imports.Some? ==>
        forall c :: c in r <==> exists t :: t in Selected(imports.value, pattern) && c in findClasses(t)
    {
      match imports
      case None => []
      case Some(stmts) => Found(Selected(stmts, pattern))
    }

    /** `filterImportByRegex` (lines 35-44). */
    method FilterImportByRegex(imports: Option<seq<ImportStatement>>, pattern: ImportPattern)
      returns (classes: seq<ClassRef>)
      requires Valid()
      modifies this
      ensures Valid()
      ensures classes == Filtered(imports, pattern)
      ensures forall k :: k in old(importCache) ==> k in importCache && importCache[k] == old(importCache)[k]
      ensures old(lookups) <= lookups
      ensures forall k :: k in lookups <==>
        k in old(lookups) || (imports.Some? && k in Selected(imports.value, pattern))
    {
      classes := [];
      if imports.None? {
        return;
      }
      var texts := Selected(imports.value, pattern);
      var i := 0;
      while i < |texts|
        invariant 0 <= i <= |texts|
        invariant Valid()
        invariant classes == Found(texts[..i])
        invariant old(importCache).Keys <= importCache.Keys
        invariant old(lookups) <= lookups
        invariant forall k :: k in lookups <==> k in old(lookups) || k in texts[..i]
      {
        assert texts[..i + 1] == texts[..i] + [texts[i]];
        var found := GetOrPut(texts[i]);
        FoundSnoc(texts[..i], texts[i]);
        classes := classes + found;
        i := i + 1;
      }
      assert texts[..i] == texts;
    }

    /** `importCache.getOrPut(importText) { findClasses(importText) }` (lines 40-42). */
    method GetOrPut(importText: string) returns (found: seq<ClassRef>)
      requires Valid()
      modifies this
      ensures Valid()
      ensures found == findClasses(importText)
      ensures importCache == old(importCache)[importText := found]
      ensures lookups == old(lookups) + (if importText in old(importCache) then [] else [importText])
    {
      if importText in importCache {
        found := importCache[importText];
      } else {
        found := findClasses(importText);
        importCache := importCache[importText := found];
        lookups := lookups + [importText];
      }
    }

    lemma FoundSnoc(texts: seq<string>, t: string)
      ensures Found(texts + [t]) == Found(texts) + findClasses(t)
    {
      assert (texts + [t])[..|texts|] == texts;
    }

    /** `servicePrompt` (lines 46-51) with `prepareServiceContext` (lines 53-62). */
    method ServicePrompt(psiFile: Option<SourceFile>) returns (prompt: string)
      requires Valid()
      modifies this
      ensures Valid()
      ensures prompt == ServiceText(
        if psiFile.Some? && psiFile.value.JavaFile? then Some(Filtered(psiFile.value.imports, DomainPattern)) else None)
      ensures forall k :: k in old(importCache) ==> k in importCache && importCache[k] == old(importCache)[k]
      ensures old(lookups) <= lookups
      ensures forall k :: k in lookups <==> k in old(lookups) || k in FileSelection(psiFile, DomainPattern)
    {
      if psiFile.None? || !psiFile.value.JavaFile? {
        return "\nnull\n";
      }
      var entities := FilterImportByRegex(psiFile.value.imports, DomainPattern);
      prompt := "\n" + Join(Texts(entities), '\n') + "\n";
    }

    /** `controllerPrompt` (lines 64-77) with `prepareControllerContext` (lines 20-32); line 73 asks about `file` for every class. */
    method ControllerPrompt(psiFile: Option<SourceFile>) returns (prompt: string)
      requires Valid()
      modifies this
      ensures Valid()
      ensures psiFile.None? || !psiFile.value.JavaFile? ==> prompt == ""
      ensures psiFile.Some? && psiFile.value.JavaFile? ==>
        var file := psiFile.value;
        var services := DistinctByName(Filtered(file.imports, ServicePattern));
        var models := DistinctByName(Filtered(file.imports, DomainPattern));
        prompt == ControllerText(ClassListAsWritten(classContext, file, services + models), file.path)
      ensures forall k :: k in old(importCache) ==> k in importCache && importCache[k] == old(importCache)[k]
      ensures old(lookups) <= lookups
      ensures forall k :: k in lookups <==>
        k in old(lookups) || k in FileSelection(psiFile, ServicePattern) || k in FileSelection(psiFile, DomainPattern)
    {
      if psiFile.None? || !psiFile.value.JavaFile? {
        return "";
      }
      var file := psiFile.value;
      var services := FilterImportByRegex(file.imports, ServicePattern);
      var models := FilterImportByRegex(file.imports, DomainPattern);
      var relevantModel := DistinctByName(services) + DistinctByName(models);
      var classList := ClassListAsWritten(classContext, file, relevantModel);
      prompt := "\n" + Join(classList, '\n') + "\n//current path: " + file.path + "\n";
    }
  }
}
