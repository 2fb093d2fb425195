/**
 * The top-level declaration analyzer that the loader installs into its
 * parser: one left-to-right pass over a program's top-level statements that
 * builds the identifier tables, finds where injected code may be inserted
 * (just past the directive prologue) and raises a redeclaration SyntaxError
 * as soon as a forbidden redeclaration is seen.
 *
 * The statement parser, the end-of-file token handling and `finishNode` are
 * outside this model: the analyzer receives the statements the parser would
 * return, in order, and the extractor of identifiers from binding patterns is
 * a parameter.
 */
module TopLevel {
  import opened Wrappers

  // ------------------------------------------------------------------------
  // Data model

  /** An identifier node: its name and the offset where it starts. */
  datatype Ident = Ident(name: string, start: int)

  /** A binding-pattern node (the `id` of a variable declarator). Its shape is
      only observed through the identifier extractor. */
  datatype Pattern = Pattern(handle: nat)

  /** The identifiers a binding pattern binds, in order (getIdentifiersFromPattern). */
  type Extractor = Pattern -> seq<Ident>

  datatype LiteralValue = StringValue(text: string) | NonStringValue

  datatype Expression = Literal(value: LiteralValue) | NonLiteral

  /** The statement kinds the analyzer tells apart; every other kind is `OtherStatement`. */
  datatype Node =
    | ExpressionStatement(expression: Expression)
    | VariableDeclaration(declarators: seq<Pattern>)
    | ClassDeclaration(id: Option<Ident>)
    | FunctionDeclaration(id: Option<Ident>)
    | ImportDeclaration(locals: seq<Ident>)
    | ExportDefaultDeclaration(declaration: Option<Node>)
    | ExportNamedDeclaration(declaration: Option<Node>)
    | OtherStatement

  /** A parsed top-level statement and the offset just past its end. */
  datatype Statement = Statement(node: Node, end: int)

  /** A raised redeclaration: a SyntaxError at offset `pos` naming `name`. */
  datatype Redeclaration = Redeclaration(pos: int, name: string) {

    /** The error message raiseRedeclaration attaches to the SyntaxError. */
    function Message(): (m: string)
      ensures |m| == |name| + 39
      ensures m[..12] == "Identifier '"
      ensures m[|m| - 27..] == "' has already been declared"
    {
      "Identifier '" + name + "' has already been declared"
    }
  }

  /** Reads the declared name back out of a redeclaration message. */
  function NameInMessage(m: string): string
    requires |m| >= 39
  {
    m[12..|m| - 27]
  }

  /** The `top` record the analyzer attaches to the program node. */
  datatype Top = Top(
    firstAwaitOutsideFunction: Option<int>,
    identifiers: set<string>,
    importedBindings: set<string>,
    insertIndex: int,
    insertPrefix: string)

  // ------------------------------------------------------------------------
  // Statement classification

  /** An expression statement whose expression is a string literal, such as "use strict". */
  predicate IsDirective(st: Statement) {
    && st.node.ExpressionStatement?
    && st.node.expression.Literal?
    && st.node.expression.value.StringValue?
  }

  /** The node whose type the analyzer inspects: an export wrapper stands for
      its declaration, and a wrapper without one has the empty type (None). */
  function Declaration(n: Node): (r: Option<Node>)
    ensures !n.ExportDefaultDeclaration? && !n.ExportNamedDeclaration? ==> r == Some(n)
    ensures r.None? ==> n.ExportDefaultDeclaration? || n.ExportNamedDeclaration?
  {
    match n
    case ExportDefaultDeclaration(d) => d
    case ExportNamedDeclaration(d) => d
    case _ => Some(n)
  }

  predicate DeclaresClass(st: Statement) {
    Declaration(st.node).Some? && Declaration(st.node).value.ClassDeclaration?
  }

  predicate DeclaresImport(st: Statement) {
    Declaration(st.node).Some? && Declaration(st.node).value.ImportDeclaration?
  }

  /** The identifiers bound by a variable declaration, declarator by declarator. */
  function VarIdents(ds: seq<Pattern>, idsOf: Extractor): seq<Ident>
    decreases |ds|
  {
    if ds == [] then [] else VarIdents(ds[..|ds| - 1], idsOf) + idsOf(ds[|ds| - 1])
  }

  function Names(ids: seq<Ident>): set<string> {
    set id | id in ids :: id.name
  }

  /** The first identifier whose name is in `names`. */
  function FirstIn(ids: seq<Ident>, names: set<string>): (r: Option<Ident>)
    ensures r.Some? ==> r.value in ids && r.value.name in names
    ensures r.None? <==> forall id :: id in ids ==> id.name !in names
    decreases |ids|
  {
    if ids == [] then None
    else
      var last := ids[|ids| - 1];
      match FirstIn(ids[..|ids| - 1], names)
      case Some(x) => Some(x)
      case None => if last.name in names then Some(last) else None
  }

  /** The local at index `i` is new: neither imported before nor named by
      an earlier local of the same list. */
  predicate FreshAt(ids: seq<Ident>, seen: set<string>, i: nat)
    requires i < |ids|
  {
    ids[i].name !in seen + Names(ids[..i])
  }

  /** The first identifier whose name is in `seen` or is the name of an
      earlier identifier of the same list. */
  function FirstRepeated(ids: seq<Ident>, seen: set<string>): (r: Option<Ident>)
    ensures r.Some? ==> r.value in ids
    decreases |ids|
  {
    if ids == [] then None
    else
      var n := |ids| - 1;
      match FirstRepeated(ids[..n], seen)
      case Some(x) => Some(x)
      case None => if ids[n].name in seen + Names(ids[..n]) then Some(ids[n]) else None
  }

  // ------------------------------------------------------------------------
  // The analysis as a fold over the statements

  /** The analyzer's state between two statements. */
  datatype Scan = Scan(
    inited: bool,
    insertIndex: int,
    insertPrefix: string,
    identifiers: set<string>,
    funcs: set<string>,
    importedBindings: set<string>)

  function Start(start: int): Scan {
    Scan(false, start, "", {}, {}, {})
  }

  /** The directive-prologue part of one step. */
  function Prologue(s: Scan, st: Statement): (r: Scan)
    // the name tables are not the prologue check's business
    ensures r.identifiers == s.identifiers && r.funcs == s.funcs && r.importedBindings == s.importedBindings
    // once set, `inited` freezes the insertion point
    ensures s.inited ==> r == s
    ensures r.inited <==> s.inited || !IsDirective(st)
    // only a directive of the prologue moves the insertion point, to its end
    ensures r.insertIndex != s.insertIndex || r.insertPrefix != s.insertPrefix ==>
              !s.inited && IsDirective(st) && r.insertIndex == st.end && r.insertPrefix == ";"
  {
    if s.inited then s
    else if IsDirective(st) then s.(insertIndex := st.end, insertPrefix := ";")
    else s.(inited := true)
  }

  /** One iteration of the analyzer's loop: the prologue check, then the
      declaration checks on the (unwrapped) statement. */
  function Step(s: Scan, st: Statement, inModule: bool, idsOf: Extractor): (r: Result<Scan, Redeclaration>)
    // declarations never move the insertion point; only the prologue check does
    ensures r.Ok? ==> && r.value.inited == Prologue(s, st).inited
                      && r.value.insertIndex == Prologue(s, st).insertIndex
                      && r.value.insertPrefix == Prologue(s, st).insertPrefix
    ensures s.inited && r.Ok? ==> && r.value.inited
                                  && r.value.insertIndex == s.insertIndex
                                  && r.value.insertPrefix == s.insertPrefix
    // the tables only grow, and funcs and importedBindings stay inside identifiers
    ensures r.Ok? ==> && s.identifiers <= r.value.identifiers
                      && s.funcs <= r.value.funcs
                      && s.importedBindings <= r.value.importedBindings
    ensures r.Ok? && s.funcs <= s.identifiers && s.importedBindings <= s.identifiers ==>
              r.value.funcs <= r.value.identifiers && r.value.importedBindings <= r.value.identifiers
    // outside module mode only an import can be rejected; a class never is
    ensures r.Err? && !inModule ==> DeclaresImport(st)
    ensures DeclaresClass(st) ==> r.Ok?
  {
    Declare(Prologue(s, st), st, inModule, idsOf)
  }

  /** A directive declares nothing: the declaration checks neither raise
      nor change a table for it. */
  lemma DirectiveDeclaresNothing(s1: Scan, st: Statement, inModule: bool, idsOf: Extractor)
    requires IsDirective(st)
    ensures Declare(s1, st, inModule, idsOf) == Ok(s1)
  {
  }

  /** The declaration checks of one step, on the state after the prologue
      check; they leave the insertion fields alone. */
  function Declare(s1: Scan, st: Statement, inModule: bool, idsOf: Extractor): (r: Result<Scan, Redeclaration>)
    ensures r.Ok? ==> r.value.(identifiers := s1.identifiers, funcs := s1.funcs, importedBindings := s1.importedBindings) == s1
  {
    var d := Declaration(st.node);
    if d.None? then Ok(s1)
    else match d.value
      case VariableDeclaration(ds) =>
        var ids := VarIdents(ds, idsOf);
        var clash := if inModule then FirstIn(ids, s1.funcs) else None;
        if clash.Some? then Err(Redeclaration(clash.value.start, clash.value.name))
        else Ok(s1.(identifiers := s1.identifiers + Names(ids)))
      case ClassDeclaration(id) =>
        if id.None? then Ok(s1) else Ok(s1.(identifiers := s1.identifiers + {id.value.name}))
      case FunctionDeclaration(id) =>
        if id.None? then Ok(s1)
        else if inModule && id.value.name in s1.identifiers then
          Err(Redeclaration(id.value.start, id.value.name))
        else
          Ok(s1.(funcs := s1.funcs + {id.value.name}, identifiers := s1.identifiers + {id.value.name}))
      case ImportDeclaration(locals) =>
        var clash := FirstRepeated(locals, s1.importedBindings);
        if clash.Some? then Err(Redeclaration(clash.value.start, clash.value.name))
        else Ok(s1.(identifiers := s1.identifiers + Names(locals),
                    importedBindings := s1.importedBindings + Names(locals)))
      case _ => Ok(s1)
  }

  /** The outcome of analyzing a statement sequence: the final state, or the
      index of the statement that raised and the error it raised. */
  datatype Analysis = Completed(scan: Scan) | Raised(at: nat, error: Redeclaration)

  function Analyze(stmts: seq<Statement>, start: int, inModule: bool, idsOf: Extractor): (r: Analysis)
    ensures r.Raised? ==> r.at < |stmts|
    decreases |stmts|
  {
    if stmts == [] then Completed(Start(start))
    else
      var n := |stmts| - 1;
      match Analyze(stmts[..n], start, inModule, idsOf)
      case Raised(at, e) => Raised(at, e)
      case Completed(s) =>
        match Step(s, stmts[n], inModule, idsOf)
        case Ok(s') => Completed(s')
        case Err(e) => Raised(n, e)
  }

  // ------------------------------------------------------------------------
  // A reference description in terms of what earlier statements declare

  /** Every name a statement declares (var, class, function or import). */
  function DeclaredBy(st: Statement, idsOf: Extractor): set<string> {
    var d := Declaration(st.node);
    if d.None? then {}
    else match d.value
      case VariableDeclaration(ds) => Names(VarIdents(ds, idsOf))
      case ClassDeclaration(id) => if id.Some? then {id.value.name} else {}
      case FunctionDeclaration(id) => if id.Some? then {id.value.name} else {}
      case ImportDeclaration(locals) => Names(locals)
      case _ => {}
  }

  function FunctionDeclaredBy(st: Statement): set<string> {
    var d := Declaration(st.node);
    if d.Some? && d.value.FunctionDeclaration? && d.value.id.Some? then {d.value.id.value.name} else {}
  }

  function ImportedBy(st: Statement): set<string> {
    var d := Declaration(st.node);
    if d.Some? && d.value.ImportDeclaration? then Names(d.value.locals) else {}
  }

  function DeclaredNames(stmts: seq<Statement>, idsOf: Extractor): set<string>
    decreases |stmts|
  {
    if stmts == [] then {}
    else DeclaredNames(stmts[..|stmts| - 1], idsOf) + DeclaredBy(stmts[|stmts| - 1], idsOf)
  }

  function FunctionNames(stmts: seq<Statement>): set<string>
    decreases |stmts|
  {
    if stmts == [] then {}
    else FunctionNames(stmts[..|stmts| - 1]) + FunctionDeclaredBy(stmts[|stmts| - 1])
  }

  function ImportedNames(stmts: seq<Statement>): set<string>
    decreases |stmts|
  {
    if stmts == [] then {}
    else ImportedNames(stmts[..|stmts| - 1]) + ImportedBy(stmts[|stmts| - 1])
  }

  /** The identifier at which `st` conflicts with the statements `prior` before it:
      in module mode, a variable name earlier declared as a function, or a
      function name earlier declared in any way; in any mode, an import local
      earlier imported (by an earlier import or earlier in the same one). */
  function Offender(prior: seq<Statement>, st: Statement, inModule: bool, idsOf: Extractor): Option<Ident> {
    var d := Declaration(st.node);
    if d.None? then None
    else match d.value
      case VariableDeclaration(ds) =>
        if inModule then FirstIn(VarIdents(ds, idsOf), FunctionNames(prior)) else None
      case FunctionDeclaration(id) =>
        if inModule && id.Some? && id.value.name in DeclaredNames(prior, idsOf) then id else None
      case ImportDeclaration(locals) => FirstRepeated(locals, ImportedNames(prior))
      case _ => None
  }

  /** The length of the directive prologue: the leading run of directives. */
  function PrologueLength(stmts: seq<Statement>): (k: nat)
    ensures k <= |stmts|
    ensures forall i :: 0 <= i < k ==> IsDirective(stmts[i])
    ensures k < |stmts| ==> !IsDirective(stmts[k])
    decreases |stmts|
  {
    if stmts == [] || !IsDirective(stmts[0]) then 0 else 1 + PrologueLength(stmts[1..])
  }

  // ------------------------------------------------------------------------
  // Lemmas

  lemma {:induction false} MessageNamesIdentifier(e: Redeclaration)
    ensures NameInMessage(e.Message()) == e.name
  {
    var m := e.Message();
    assert m == "Identifier '" + e.name + "' has already been declared";
    assert m[12..|m| - 27] == e.name;
  }

  lemma {:induction false} NamesAppend(a: seq<Ident>, b: seq<Ident>)
    ensures Names(a + b) == Names(a) + Names(b)
  {
    forall n | n in Names(a + b) ensures n in Names(a) + Names(b) {
      var id :| id in a + b && id.name == n;
      if id in a { assert n in Names(a); } else { assert n in Names(b); }
    }
    forall n | n in Names(a) + Names(b) ensures n in Names(a + b) {
      if n in Names(a) {
        var id :| id in a && id.name == n;
        assert id in a + b;
      } else {
        var id :| id in b && id.name == n;
        assert id in a + b;
      }
    }
  }

  lemma {:induction false} VarIdentsAppend(a: seq<Pattern>, b: seq<Pattern>, idsOf: Extractor)
    ensures VarIdents(a + b, idsOf) == VarIdents(a, idsOf) + VarIdents(b, idsOf)
    decreases |b|
  {
    if b == [] {
      assert a + b == a;
    } else {
      var n := |b| - 1;
      assert (a + b)[..|a + b| - 1] == a + b[..n];
      VarIdentsAppend(a, b[..n], idsOf);
    }
  }

  lemma {:induction false} FirstInPrefix(p: seq<Ident>, q: seq<Ident>, names: set<string>)
    requires FirstIn(p, names).Some?
    ensures FirstIn(p + q, names) == FirstIn(p, names)
    decreases |q|
  {
    if q == [] {
      assert p + q == p;
    } else {
      var n := |q| - 1;
      assert (p + q)[..|p + q| - 1] == p + q[..n];
      FirstInPrefix(p, q[..n], names);
    }
  }

  lemma {:induction false} FirstRepeatedPrefix(p: seq<Ident>, q: seq<Ident>, seen: set<string>)
    requires FirstRepeated(p, seen).Some?
    ensures FirstRepeated(p + q, seen) == FirstRepeated(p, seen)
    decreases |q|
  {
    if q == [] {
      assert p + q == p;
    } else {
      var n := |q| - 1;
      assert (p + q)[..|p + q| - 1] == p + q[..n];
      FirstRepeatedPrefix(p, q[..n], seen);
    }
  }

  lemma FirstInSnoc(seen: seq<Ident>, id: Ident, names: set<string>)
    requires FirstIn(seen, names).None? && id.name in names
    ensures FirstIn(seen + [id], names) == Some(id)
  {
    assert (seen + [id])[..|seen|] == seen;
  }

  lemma FirstInSnocNone(seen: seq<Ident>, id: Ident, names: set<string>)
    requires FirstIn(seen, names).None? && id.name !in names
    ensures FirstIn(seen + [id], names).None?
  {
    assert (seen + [id])[..|seen|] == seen;
  }

  lemma NamesSnoc(seen: seq<Ident>, id: Ident)
    ensures Names(seen + [id]) == Names(seen) + {id.name}
  {
    NamesAppend(seen, [id]);
    assert Names([id]) == {id.name};
  }

  lemma FirstRepeatedSnoc(p: seq<Ident>, x: Ident, seen: set<string>)
    requires FirstRepeated(p, seen).None?
    ensures FirstRepeated(p + [x], seen) == if x.name in seen + Names(p) then Some(x) else None
  {
    assert (p + [x])[..|p|] == p;
  }

  /** Freshness at an index depends only on the locals before it. */
  lemma FreshAtPrefix(ids: seq<Ident>, seen: set<string>, n: nat)
    requires n <= |ids|
    ensures forall i :: 0 <= i < n ==> FreshAt(ids[..n], seen, i) == FreshAt(ids, seen, i)
  {
    forall i | 0 <= i < n
      ensures FreshAt(ids[..n], seen, i) == FreshAt(ids, seen, i)
    {
      assert ids[..n][..i] == ids[..i];
    }
  }

  /** No repetition is found exactly when every local is new. */
  lemma {:induction false} FirstRepeatedMeaning(ids: seq<Ident>, seen: set<string>)
    ensures FirstRepeated(ids, seen).None? <==> forall i :: 0 <= i < |ids| ==> FreshAt(ids, seen, i)
    decreases |ids|
  {
    if ids != [] {
      var n := |ids| - 1;
      var pre := ids[..n];
      FirstRepeatedMeaning(pre, seen);
      forall i | 0 <= i < n
        ensures FreshAt(pre, seen, i) == FreshAt(ids, seen, i)
      {
        assert pre[..i] == ids[..i];
      }
      if FirstRepeated(ids, seen).None? {
        assert FirstRepeated(pre, seen).None?;
        assert FreshAt(ids, seen, n);
      } else if FirstRepeated(pre, seen).None? {
        assert !FreshAt(ids, seen, n);
      } else {
        var j :| 0 <= j < n && !FreshAt(pre, seen, j);
        assert !FreshAt(ids, seen, j);
      }
    }
  }

  /** `FirstIn` reports the first identifier with a name in `names`: every
      identifier before it has a name outside `names`. */
  lemma {:induction false} FirstInIsFirst(ids: seq<Ident>, names: set<string>)
    ensures FirstIn(ids, names).Some? ==>
              exists i :: && 0 <= i < |ids| && ids[i] == FirstIn(ids, names).value
                          && ids[i].name in names
                          && forall j :: 0 <= j < i ==> ids[j].name !in names
    decreases |ids|
  {
    if ids != [] {
      var n := |ids| - 1;
      var pre := ids[..n];
      FirstInIsFirst(pre, names);
      match FirstIn(pre, names)
      case Some(x) =>
        var i :| && 0 <= i < n && pre[i] == x && pre[i].name in names
                 && forall j :: 0 <= j < i ==> pre[j].name !in names;
        assert ids[i] == x;
        assert forall j :: 0 <= j < i ==> ids[j] == pre[j];
      case None =>
        if ids[n].name in names {
          assert forall j :: 0 <= j < n ==> pre[j] in pre;
          assert forall j :: 0 <= j < n ==> ids[j] == pre[j];
        }
    }
  }

  /** `FirstRepeated` reports the first local that is not new: every local
      before it is new, and it is not. */
  lemma {:induction false} FirstRepeatedIsFirst(ids: seq<Ident>, seen: set<string>)
    ensures FirstRepeated(ids, seen).Some? ==>
              exists i :: && 0 <= i < |ids| && ids[i] == FirstRepeated(ids, seen).value
                          && !FreshAt(ids, seen, i)
                          && forall j :: 0 <= j < i ==> FreshAt(ids, seen, j)
    decreases |ids|
  {
    if ids != [] {
      var n := |ids| - 1;
      var pre := ids[..n];
      FirstRepeatedIsFirst(pre, seen);
      FreshAtPrefix(ids, seen, n);
      match FirstRepeated(pre, seen)
      case Some(x) =>
        var i :| && 0 <= i < n && pre[i] == x && !FreshAt(pre, seen, i)
                 && forall j :: 0 <= j < i ==> FreshAt(pre, seen, j);
        assert ids[i] == x;
      case None =>
        FirstRepeatedMeaning(pre, seen);
        if FirstRepeated(ids, seen).Some? {
          assert !FreshAt(ids, seen, n);
        }
    }
  }

  lemma VarIdentsSplit(ds: seq<Pattern>, j: nat, idsOf: Extractor)
    requires j < |ds|
    ensures VarIdents(ds, idsOf) == VarIdents(ds[..j], idsOf) + idsOf(ds[j]) + VarIdents(ds[j + 1..], idsOf)
  {
    var p := ds[..j];
    var x := ds[j];
    var q := ds[j + 1..];
    VarIdentsSingle(x, idsOf);
    VarIdentsAppend(p, [x], idsOf);
    VarIdentsAppend(p + [x], q, idsOf);
    SplitAround(ds, j);
  }

  lemma SplitAround<T>(s: seq<T>, j: nat)
    requires j < |s|
    ensures s[..j] + [s[j]] + s[j + 1..] == s
  {
  }

  lemma VarIdentsSingle(x: Pattern, idsOf: Extractor)
    ensures VarIdents([x], idsOf) == idsOf(x)
  {
    assert [x][..0] == [];
  }

  /** The identifiers of a declaration, cut around the k-th identifier of
      its j-th declarator. */
  lemma VarIdentsAround(ds: seq<Pattern>, j: nat, k: nat, idsOf: Extractor)
    requires j < |ds| && k < |idsOf(ds[j])|
    ensures var ids := idsOf(ds[j]);
            VarIdents(ds, idsOf) ==
            (VarIdents(ds[..j], idsOf) + ids[..k] + [ids[k]]) + (ids[k + 1..] + VarIdents(ds[j + 1..], idsOf))
  {
    var ids := idsOf(ds[j]);
    VarIdentsSplit(ds, j, idsOf);
    assert ids == ids[..k] + [ids[k]] + ids[k + 1..];
  }

  /** A variable identifier that clashes, after a clash-free run, is the
      first clash of the whole declaration. */
  lemma VarClashAt(ds: seq<Pattern>, j: nat, k: nat, names: set<string>, idsOf: Extractor)
    requires j < |ds| && k < |idsOf(ds[j])|
    requires FirstIn(VarIdents(ds[..j], idsOf) + idsOf(ds[j])[..k], names).None?
    requires idsOf(ds[j])[k].name in names
    ensures FirstIn(VarIdents(ds, idsOf), names) == Some(idsOf(ds[j])[k])
  {
    var ids := idsOf(ds[j]);
    var p := VarIdents(ds[..j], idsOf) + ids[..k] + [ids[k]];
    FirstInSnoc(VarIdents(ds[..j], idsOf) + ids[..k], ids[k], names);
    VarIdentsAround(ds, j, k, idsOf);
    FirstInPrefix(p, ids[k + 1..] + VarIdents(ds[j + 1..], idsOf), names);
  }

  /** An import local that repeats, after a run of new locals, is the first
      repetition of the whole import. */
  lemma ImportClashAt(locals: seq<Ident>, k: nat, seen: set<string>)
    requires k < |locals|
    requires FirstRepeated(locals[..k], seen).None?
    requires locals[k].name in seen + Names(locals[..k])
    ensures FirstRepeated(locals, seen) == Some(locals[k])
  {
    var p := locals[..k];
    var x := locals[k];
    var q := locals[k + 1..];
    FirstRepeatedSnoc(p, x, seen);
    FirstRepeatedPrefix(p + [x], q, seen);
    assert p + [x] + q == locals;
  }

  /** Once a prefix raises, the whole sequence raises the same error. */
  lemma {:induction false} RaisedIsFinal(stmts: seq<Statement>, k: nat, start: int, inModule: bool, idsOf: Extractor)
    requires k <= |stmts|
    requires Analyze(stmts[..k], start, inModule, idsOf).Raised?
    ensures Analyze(stmts, start, inModule, idsOf) == Analyze(stmts[..k], start, inModule, idsOf)
    decreases |stmts| - k
  {
    if k == |stmts| {
      assert stmts[..k] == stmts;
    } else {
      var n := |stmts| - 1;
      assert stmts[..n][..k] == stmts[..k];
      RaisedIsFinal(stmts[..n], k, start, inModule, idsOf);
    }
  }

  lemma StepSucceedsAt(stmts: seq<Statement>, i: nat, before: Scan, after: Scan, start: int, inModule: bool, idsOf: Extractor)
    requires i < |stmts|
    requires Analyze(stmts[..i], start, inModule, idsOf) == Completed(before)
    requires Step(before, stmts[i], inModule, idsOf) == Ok(after)
    ensures Analyze(stmts[..i + 1], start, inModule, idsOf) == Completed(after)
  {
    assert stmts[..i + 1][..i] == stmts[..i];
  }

  lemma StepFailsAt(stmts: seq<Statement>, i: nat, before: Scan, e: Redeclaration, start: int, inModule: bool, idsOf: Extractor)
    requires i < |stmts|
    requires Analyze(stmts[..i], start, inModule, idsOf) == Completed(before)
    requires Step(before, stmts[i], inModule, idsOf) == Err(e)
    ensures Analyze(stmts, start, inModule, idsOf) == Raised(i, e)
  {
    assert stmts[..i + 1][..i] == stmts[..i];
    RaisedIsFinal(stmts, i + 1, start, inModule, idsOf);
  }

  /** One step agrees with the reference: it fails exactly at the offender,
      and otherwise its tables are the names declared so far. */
  lemma StepAgreesWithOffender(s: Scan, prior: seq<Statement>, st: Statement, inModule: bool, idsOf: Extractor)
    requires s.identifiers == DeclaredNames(prior, idsOf)
    requires s.funcs == FunctionNames(prior)
    requires s.importedBindings == ImportedNames(prior)
    ensures match Step(s, st, inModule, idsOf)
      case Ok(s') =>
        && Offender(prior, st, inModule, idsOf).None?
        && s'.identifiers == DeclaredNames(prior + [st], idsOf)
        && s'.funcs == FunctionNames(prior + [st])
        && s'.importedBindings == ImportedNames(prior + [st])
      case Err(e) => Offender(prior, st, inModule, idsOf) == Some(Ident(e.name, e.pos))
  {
    var all := prior + [st];
    assert all[..|prior|] == prior;
    assert DeclaredNames(all, idsOf) == DeclaredNames(prior, idsOf) + DeclaredBy(st, idsOf);
    assert FunctionNames(all) == FunctionNames(prior) + FunctionDeclaredBy(st);
    assert ImportedNames(all) == ImportedNames(prior) + ImportedBy(st);
    var s1 := Prologue(s, st);
    assert s1.identifiers == s.identifiers && s1.funcs == s.funcs && s1.importedBindings == s.importedBindings;
    assert Step(s, st, inModule, idsOf) == Declare(s1, st, inModule, idsOf);
  }

  /** The analysis fails exactly at the first statement with an offender,
      reporting that offending identifier's name and start; when it
      completes, its tables hold exactly the names the program declares. */
  lemma {:induction false} AnalyzeMatchesReference(stmts: seq<Statement>, start: int, inModule: bool, idsOf: Extractor)
    ensures match Analyze(stmts, start, inModule, idsOf)
      case Completed(s) =>
        && s.identifiers == DeclaredNames(stmts, idsOf)
        && s.funcs == FunctionNames(stmts)
        && s.importedBindings == ImportedNames(stmts)
        && forall i :: 0 <= i < |stmts| ==> Offender(stmts[..i], stmts[i], inModule, idsOf).None?
      case Raised(at, e) =>
        && at < |stmts|
        && Offender(stmts[..at], stmts[at], inModule, idsOf) == Some(Ident(e.name, e.pos))
        && forall i :: 0 <= i < at ==> Offender(stmts[..i], stmts[i], inModule, idsOf).None?
    decreases |stmts|
  {
    if stmts != [] {
      var n := |stmts| - 1;
      var init := stmts[..n];
      AnalyzeMatchesReference(init, start, inModule, idsOf);
      forall i | 0 <= i < n
        ensures Offender(stmts[..i], stmts[i], inModule, idsOf) == Offender(init[..i], init[i], inModule, idsOf)
      {
        assert init[..i] == stmts[..i];
      }
      match Analyze(init, start, inModule, idsOf)
      case Raised(at, e) =>
      case Completed(s) =>
        StepAgreesWithOffender(s, init, stmts[n], inModule, idsOf);
        assert init + [stmts[n]] == stmts;
    }
  }

  /** The analysis raises if and only if some statement has an offender. */
  lemma RaisesIffSomeOffender(stmts: seq<Statement>, start: int, inModule: bool, idsOf: Extractor)
    ensures Analyze(stmts, start, inModule, idsOf).Raised? <==>
            exists i :: 0 <= i < |stmts| && Offender(stmts[..i], stmts[i], inModule, idsOf).Some?
  {
    AnalyzeMatchesReference(stmts, start, inModule, idsOf);
  }

  /** Outside module mode only an import statement can raise. */
  lemma ScriptModeRaisesOnlyAtImports(stmts: seq<Statement>, start: int, idsOf: Extractor)
    requires Analyze(stmts, start, false, idsOf).Raised?
    ensures DeclaresImport(stmts[Analyze(stmts, start, false, idsOf).at])
  {
    AnalyzeMatchesReference(stmts, start, false, idsOf);
  }

  /** Every function name and every imported name is also an identifier. */
  lemma {:induction false} TablesNested(stmts: seq<Statement>, start: int, inModule: bool, idsOf: Extractor)
    requires Analyze(stmts, start, inModule, idsOf).Completed?
    ensures var s := Analyze(stmts, start, inModule, idsOf).scan;
            s.funcs <= s.identifiers && s.importedBindings <= s.identifiers
    decreases |stmts|
  {
    if stmts != [] {
      TablesNested(stmts[..|stmts| - 1], start, inModule, idsOf);
    }
  }

  lemma PrologueUnique(stmts: seq<Statement>, k: nat)
    requires k <= |stmts|
    requires forall i :: 0 <= i < k ==> IsDirective(stmts[i])
    requires k < |stmts| ==> !IsDirective(stmts[k])
    ensures k == PrologueLength(stmts)
  {
  }

  /** The directive-prologue check alone, folded over the statements. */
  function PrologueFold(stmts: seq<Statement>, start: int): Scan
    decreases |stmts|
  {
    if stmts == [] then Start(start)
    else Prologue(PrologueFold(stmts[..|stmts| - 1], start), stmts[|stmts| - 1])
  }

  /** The declaration checks never move the insertion point: the analysis
      has the insertion fields of the prologue check alone. */
  lemma {:induction false} InsertionIgnoresDeclarations(stmts: seq<Statement>, start: int, inModule: bool, idsOf: Extractor)
    requires Analyze(stmts, start, inModule, idsOf).Completed?
    ensures var s := Analyze(stmts, start, inModule, idsOf).scan;
            var q := PrologueFold(stmts, start);
            s.inited == q.inited && s.insertIndex == q.insertIndex && s.insertPrefix == q.insertPrefix
    decreases |stmts|
  {
    if stmts != [] {
      InsertionIgnoresDeclarations(stmts[..|stmts| - 1], start, inModule, idsOf);
    }
  }

  /** The prologue check ends after the last directive of the prologue. */
  lemma {:induction false} PrologueFoldFollowsPrologue(stmts: seq<Statement>, start: int)
    ensures var q := PrologueFold(stmts, start);
            var k := PrologueLength(stmts);
            && q.inited == (k < |stmts|)
            && q.insertIndex == (if k == 0 then start else stmts[k - 1].end)
            && q.insertPrefix == (if k == 0 then "" else ";")
    decreases |stmts|
  {
    if stmts != [] {
      var n := |stmts| - 1;
      var init := stmts[..n];
      PrologueFoldFollowsPrologue(init, start);
      var k0 := PrologueLength(init);
      assert forall i :: 0 <= i < n ==> init[i] == stmts[i];
      if k0 < n {
        PrologueUnique(stmts, k0);
      } else if IsDirective(stmts[n]) {
        PrologueUnique(stmts, n + 1);
      } else {
        PrologueUnique(stmts, n);
      }
    }
  }

  /** The insertion point is the end of the last directive of the prologue
      (with prefix ";"), or the program start (with prefix "") when the
      program does not begin with a directive. */
  lemma InsertionPointFollowsPrologue(stmts: seq<Statement>, start: int, inModule: bool, idsOf: Extractor)
    requires Analyze(stmts, start, inModule, idsOf).Completed?
    ensures var s := Analyze(stmts, start, inModule, idsOf).scan;
            var k := PrologueLength(stmts);
            && s.inited == (k < |stmts|)
            && s.insertIndex == (if k == 0 then start else stmts[k - 1].end)
            && s.insertPrefix == (if k == 0 then "" else ";")
  {
    InsertionIgnoresDeclarations(stmts, start, inModule, idsOf);
    PrologueFoldFollowsPrologue(stmts, start);
  }

  // ------------------------------------------------------------------------
  // Examples

  /** The step over `let x = 1;` after the two directives. */
  lemma LetStep(idsOf: Extractor, inModule: bool)
    requires idsOf(Pattern(0)) == [Ident("x", 29)]
    ensures Step(Scan(false, 24, ";", {}, {}, {}), Statement(VariableDeclaration([Pattern(0)]), 35), inModule, idsOf)
            == Ok(Scan(true, 24, ";", {"x"}, {}, {}))
  {
    var s2 := Scan(false, 24, ";", {}, {}, {});
    var x := Statement(VariableDeclaration([Pattern(0)]), 35);
    assert [Pattern(0)][..0] == [];
    assert Prologue(s2, x) == s2.(inited := true);
    var ids := VarIdents([Pattern(0)], idsOf);
    assert ids == [Ident("x", 29)];
    assert FirstIn(ids, {}) == None;
    assert Names(ids) == {"x"};
    var r := Step(s2, x, inModule, idsOf);
    assert r.Ok? && r.value.identifiers == {"x"};
  }

  /** `"use strict"; "use asm"; let x = 1;` inserts after the second directive. */
  lemma PrologueExample(idsOf: Extractor, inModule: bool)
    requires idsOf(Pattern(0)) == [Ident("x", 29)]
    ensures var stmts := [
              Statement(ExpressionStatement(Literal(StringValue("use strict"))), 13),
              Statement(ExpressionStatement(Literal(StringValue("use asm"))), 24),
              Statement(VariableDeclaration([Pattern(0)]), 35)];
            Analyze(stmts, 0, inModule, idsOf) == Completed(Scan(true, 24, ";", {"x"}, {}, {}))
  {
    var d1 := Statement(ExpressionStatement(Literal(StringValue("use strict"))), 13);
    var d2 := Statement(ExpressionStatement(Literal(StringValue("use asm"))), 24);
    var x := Statement(VariableDeclaration([Pattern(0)]), 35);
    var stmts := [d1, d2, x];
    var s1 := Scan(false, 13, ";", {}, {}, {});
    var s2 := Scan(false, 24, ";", {}, {}, {});
    var s3 := Scan(true, 24, ";", {"x"}, {}, {});
    assert stmts[..0] == [];
    StepSucceedsAt(stmts, 0, Start(0), s1, 0, inModule, idsOf);
    StepSucceedsAt(stmts, 1, s1, s2, 0, inModule, idsOf);
    LetStep(idsOf, inModule);
    StepSucceedsAt(stmts, 2, s2, s3, 0, inModule, idsOf);
    assert stmts[..3] == stmts;
  }

  /** In module mode, `function f(){} import { f } from "x";` is not
      rejected by this analyzer: imports are only checked against imports. */
  lemma FunctionThenImportIsAccepted(idsOf: Extractor)
    ensures var stmts := [
              Statement(FunctionDeclaration(Some(Ident("f", 9))), 14),
              Statement(ImportDeclaration([Ident("f", 24)]), 37)];
            Analyze(stmts, 0, true, idsOf) == Completed(Scan(true, 0, "", {"f"}, {"f"}, {"f"}))
  {
    var stmts := [
      Statement(FunctionDeclaration(Some(Ident("f", 9))), 14),
      Statement(ImportDeclaration([Ident("f", 24)]), 37)];
    assert stmts[..1] == [stmts[0]];
    assert stmts[..1][..0] == [];
    assert stmts[..2 - 1] == stmts[..1];
    assert [Ident("f", 24)][..0] == [];
    assert Names([Ident("f", 24)]) == {"f"};
  }

  /** In module mode, `import { f } from "x"; function f(){}` raises at the
      function's identifier. */
  lemma ImportThenFunctionRaises(idsOf: Extractor)
    ensures var stmts := [
              Statement(ImportDeclaration([Ident("f", 9)]), 22),
              Statement(FunctionDeclaration(Some(Ident("f", 32))), 37)];
            Analyze(stmts, 0, true, idsOf) == Raised(1, Redeclaration(32, "f"))
  {
    var stmts := [
      Statement(ImportDeclaration([Ident("f", 9)]), 22),
      Statement(FunctionDeclaration(Some(Ident("f", 32))), 37)];
    assert stmts[..1] == [stmts[0]];
    assert stmts[..1][..0] == [];
    assert stmts[..2 - 1] == stmts[..1];
    assert [Ident("f", 9)][..0] == [];
    assert Names([Ident("f", 9)]) == {"f"};
  }

  // ------------------------------------------------------------------------
  // The analyzer as the parser runs it: in place on the program node

  /** The Program node being finished: its start offset, its `body` (None
      when it is not yet an array) and the `top` record attached at the end. */
  class ProgramNode {
    const start: int
    var body: Option<seq<Statement>>
    var top: Option<Top>
  }

  /** The loops of parseTopLevel over a variable declaration's declarators
      and the identifiers each binds: in module mode the first identifier
      already declared as a function is the clash; otherwise every name is
      recorded as an identifier. */
  method DeclareVariables(ds: seq<Pattern>, funcs: set<string>, identifiers: set<string>,
                          inModule: bool, idsOf: Extractor)
      returns (clash: Option<Ident>, declared: set<string>)
    ensures clash == (if inModule then FirstIn(VarIdents(ds, idsOf), funcs) else None)
    ensures clash.None? ==> declared == identifiers + Names(VarIdents(ds, idsOf))
  {
    declared := identifiers;
    var j := 0;
    while j < |ds|
      invariant j <= |ds|
      invariant inModule ==> FirstIn(VarIdents(ds[..j], idsOf), funcs).None?
      invariant declared == identifiers + Names(VarIdents(ds[..j], idsOf))
    {
      var ids := idsOf(ds[j]);
      ghost var pre := VarIdents(ds[..j], idsOf);
      assert ds[..j + 1][..j] == ds[..j];
      assert VarIdents(ds[..j + 1], idsOf) == pre + ids;
      var k := 0;
      while k < |ids|
        invariant k <= |ids|
        invariant inModule ==> FirstIn(pre + ids[..k], funcs).None?
        invariant declared == identifiers + Names(pre + ids[..k])
      {
        var id := ids[k];
        assert pre + ids[..k + 1] == (pre + ids[..k]) + [id];
        if inModule && id.name in funcs {
          VarClashAt(ds, j, k, funcs, idsOf);
          return Some(id), declared;
        }
        NamesSnoc(pre + ids[..k], id);
        if inModule {
          FirstInSnocNone(pre + ids[..k], id, funcs);
        }
        declared := declared + {id.name};
        k := k + 1;
      }
      assert ids[..|ids|] == ids;
      j := j + 1;
    }
    assert ds[..|ds|] == ds;
    clash := None;
  }

  /** The loop of parseTopLevel over an import's specifiers: a local already
      imported (earlier, or earlier in this import) is the clash; otherwise
      every local is recorded as an identifier and as an imported binding. */
  method DeclareImports(locals: seq<Ident>, importedBindings: set<string>, identifiers: set<string>)
      returns (clash: Option<Ident>, imported: set<string>, declared: set<string>)
    ensures clash == FirstRepeated(locals, importedBindings)
    ensures clash.None? ==> && imported == importedBindings + Names(locals)
                            && declared == identifiers + Names(locals)
  {
    imported, declared := importedBindings, identifiers;
    var k := 0;
    while k < |locals|
      invariant k <= |locals|
      invariant FirstRepeated(locals[..k], importedBindings).None?
      invariant imported == importedBindings + Names(locals[..k])
      invariant declared == identifiers + Names(locals[..k])
    {
      var local := locals[k];
      if local.name in imported {
        ImportClashAt(locals, k, importedBindings);
        return Some(local), imported, declared;
      }
      assert locals[..k + 1] == locals[..k] + [local];
      FirstRepeatedSnoc(locals[..k], local, importedBindings);
      NamesSnoc(locals[..k], local);
      declared := declared + {local.name};
      imported := imported + {local.name};
      k := k + 1;
    }
    assert locals[..|locals|] == locals;
    clash := None;
  }

  /** The branches of parseTopLevel's loop on the (unwrapped) declaration
      of one statement: the variable, class, function and import checks. */
  method DeclareStatement(mid: Scan, stmt: Statement, inModule: bool, idsOf: Extractor)
      returns (r: Result<Scan, Redeclaration>)
    ensures r == Declare(mid, stmt, inModule, idsOf)
  {
    r := Ok(mid);
    var decl := Declaration(stmt.node);
    if decl.Some? && decl.value.VariableDeclaration? {
      var clash, declared := DeclareVariables(decl.value.declarators, mid.funcs, mid.identifiers, inModule, idsOf);
      if clash.Some? {
        return Err(Redeclaration(clash.value.start, clash.value.name));
      }
      r := Ok(mid.(identifiers := declared));
    } else if decl.Some? && decl.value.ClassDeclaration? {
      var id := decl.value.id;
      if id.Some? {
        r := Ok(mid.(identifiers := mid.identifiers + {id.value.name}));
      }
    } else if decl.Some? && decl.value.FunctionDeclaration? {
      var id := decl.value.id;
      if id.Some? {
        var name := id.value.name;
        if inModule && name in mid.identifiers {
          return Err(Redeclaration(id.value.start, name));
        }
        r := Ok(mid.(funcs := mid.funcs + {name}, identifiers := mid.identifiers + {name}));
      }
    } else if decl.Some? && decl.value.ImportDeclaration? {
      var clash, imported, declared := DeclareImports(decl.value.locals, mid.importedBindings, mid.identifiers);
      if clash.Some? {
        return Err(Redeclaration(clash.value.start, clash.value.name));
      }
      r := Ok(mid.(identifiers := declared, importedBindings := imported));
    }
  }

  /** parseTopLevel: walks the statements the parser yields, appends each to
      the node's body and attaches the `top` record, or stops at the first
      redeclaration, which it returns as the raised error. */
  method ParseTopLevel(node: ProgramNode, stmts: seq<Statement>, inModule: bool,
                       firstAwait: Option<int>, idsOf: Extractor)
      returns (raised: Option<Redeclaration>)
    modifies node
    ensures var prior := if old(node.body).Some? then old(node.body).value else [];
      match Analyze(stmts, node.start, inModule, idsOf)
      case Completed(s) =>
        && raised.None?
        && node.body == Some(prior + stmts)
        && node.top == Some(Top(firstAwait, s.identifiers, s.importedBindings, s.insertIndex, s.insertPrefix))
      case Raised(at, e) =>
        && raised == Some(e)
        && node.body == Some(prior + stmts[..at])
        && node.top == old(node.top)
  {
    if node.body.None? {
      node.body := Some([]);
    }
    var body := node.body.value;
    ghost var prior := body;
    var funcs: set<string> := {};
    var identifiers: set<string> := {};
    var importedBindings: set<string> := {};
    var insertIndex := node.start;
    var insertPrefix := "";
    var inited := false;

    var i := 0;
    assert stmts[..0] == [] && prior + [] == prior;
    while i < |stmts|
      invariant i <= |stmts|
      invariant node.body == Some(body)
      invariant body == prior + stmts[..i]
      invariant node.top == old(node.top)
      invariant Analyze(stmts[..i], node.start, inModule, idsOf)
                == Completed(Scan(inited, insertIndex, insertPrefix, identifiers, funcs, importedBindings))
    {
      var stmt := stmts[i];
      ghost var before := Scan(inited, insertIndex, insertPrefix, identifiers, funcs, importedBindings);

      if !inited {
        if IsDirective(stmt) {
          insertIndex := stmt.end;
          insertPrefix := ";";
        } else {
          inited := true;
        }
      }
      ghost var mid := Scan(inited, insertIndex, insertPrefix, identifiers, funcs, importedBindings);
      assert mid == Prologue(before, stmt);

      var r := DeclareStatement(Scan(inited, insertIndex, insertPrefix, identifiers, funcs, importedBindings),
                                stmt, inModule, idsOf);
      if r.Err? {
        raised := Some(r.error);
        StepFailsAt(stmts, i, before, r.error, node.start, inModule, idsOf);
        return;
      }
      identifiers, funcs, importedBindings := r.value.identifiers, r.value.funcs, r.value.importedBindings;

      ghost var after := Scan(inited, insertIndex, insertPrefix, identifiers, funcs, importedBindings);
      assert Step(before, stmt, inModule, idsOf) == Ok(after);
      StepSucceedsAt(stmts, i, before, after, node.start, inModule, idsOf);
      body := body + [stmt];
      node.body := Some(body);
      assert stmts[..i + 1] == stmts[..i] + [stmt];
      i := i + 1;
    }
    assert stmts[..i] == stmts;

    node.top := Some(Top(firstAwait, identifiers, importedBindings, insertIndex, insertPrefix));
    raised := None;
  }
}
