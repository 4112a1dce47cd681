/** Static evaluation of `__all__` lists over a graph of Python modules that may refer to each other in
    cycles: literal lists, additions, list()/tuple() calls, and other modules' `__all__`. */
module ExportLists {

  datatype Option<T> = None | Some(value: T)

  /** A resolved file: its directory and its file name. */
  datatype Path = Path(dir: seq<string>, file: string)

  datatype Expr =
    | ListLit(items: seq<Item>)
    | Add(left: Expr, right: Expr)
    | Call(func: string, args: seq<Expr>, keywords: bool)
    | ModuleAll(id: string)
    | Unknown
    | NoValue

  datatype Item = Str(s: string) | Star(e: Expr) | Strange

  datatype Alias = Alias(name: string, asname: Option<string>)

  /** Statements; `toAll` says whether a target is the name `__all__`. An annotation without a
      value has the value NoValue. */
  datatype Stmt =
    | Assign(toAll: bool, value: Expr)
    | AugAssign(toAll: bool, isAdd: bool, value: Expr)
    | ImportFrom(level: nat, origin: Option<seq<string>>, names: seq<Alias>)
    | Compound(body: seq<Stmt>)
    | Simple

  datatype File = Module(body: seq<Stmt>) | Unparsable

  datatype World = World(files: map<Path, File>)

  datatype Error = CannotParse | Unsupported | NestedScope | BadAugment | ExtendedFirst | NotDefined | NoLineNumber

  /** What an evaluation comes to. Cyclic is the error of the code; Diverged belongs to the semantics
      without a stack, which this module compares it with. */
  datatype Outcome = Ok(names: seq<string>) | Err(error: Error, at: Path) | Cyclic(at: Path) | Diverged

  predicate Definite(o: Outcome) { o.Ok? || o.Err? }

  // ----------------------------------------------------------------- finding a module

  /** _module_file: a module of that name, or else a package. */
  function ModuleFile(w: World, dir: seq<string>, level: nat, parts: seq<string>): (p: Option<Path>)
    requires parts != []
    ensures p.Some? ==> p.value in w.files
  {
    var up := if level > 1 then level - 1 else 0;
    var base := (if up <= |dir| then dir[..|dir| - up] else []) + parts;
    var file, package := Path(base[..|base| - 1], base[|base| - 1] + ".py"), Path(base, "__init__.py");
    if file in w.files then Some(file) else if package in w.files then Some(package) else None
  }

  function Bound(a: Alias): string { if a.asname.Some? && a.asname.value != "" then a.asname.value else a.name }

  function Target(s: Stmt, a: Alias): seq<string>
    requires s.ImportFrom?
  {
    (if s.origin.Some? then s.origin.value else []) + [a.name]
  }

  function FindInNames(w: World, p: Path, s: Stmt, names: seq<Alias>, id: string): (q: Option<Path>)
    requires s.ImportFrom?
    ensures q.Some? ==> q.value in w.files
  {
    if names == [] then None
    else
      var q := if Bound(names[0]) == id then ModuleFile(w, p.dir, s.level, Target(s, names[0])) else None;
      if q.Some? then q else FindInNames(w, p, s, names[1..], id)
  }

  /** The first relative import that binds `id` to an existing module. */
  function FindModule(w: World, p: Path, body: seq<Stmt>, id: string): (q: Option<Path>)
    ensures q.Some? ==> q.value in w.files
  {
    if body == [] then None
    else
      var q := if body[0].ImportFrom? && body[0].level > 0 then FindInNames(w, p, body[0], body[0].names, id) else None;
      if q.Some? then q else FindModule(w, p, body[1..], id)
  }

  // ------------------------------------------------------------------- the semantics

  /** The value of an expression of file p; `load` gives the lists of other files. */
  function ExprVal(w: World, p: Path, body: seq<Stmt>, e: Expr, load: Path -> Outcome): Outcome
    decreases e, 0
  {
    match e
    case ListLit(items) => ItemsVal(w, p, body, items, [], load)
    case Add(left, right) =>
      var a := ExprVal(w, p, body, left, load);
      if !a.Ok? then a
      else
        var b := ExprVal(w, p, body, right, load);
        if !b.Ok? then b else Ok(a.names + b.names)
    case Call(func, args, keywords) =>
      if (func == "list" || func == "tuple") && |args| == 1 && !keywords then ExprVal(w, p, body, args[0], load) else Err(Unsupported, p)
    case ModuleAll(m) =>
      var q := FindModule(w, p, body, m);
      if q.None? then Err(Unsupported, p) else Loaded(w, q.value, load)
    case Unknown => Err(Unsupported, p)
    case NoValue => Err(NoLineNumber, p)
  }

  function ItemsVal(w: World, p: Path, body: seq<Stmt>, items: seq<Item>, acc: seq<string>, load: Path -> Outcome): Outcome
    decreases items, 1
  {
    if items == [] then Ok(acc)
    else
      var v := ItemVal(w, p, body, items[0], load);
      if !v.Ok? then v else ItemsVal(w, p, body, items[1..], acc + v.names, load)
  }

  function ItemVal(w: World, p: Path, body: seq<Stmt>, item: Item, load: Path -> Outcome): Outcome
    decreases item, 1
  {
    match item
    case Str(s) => Ok([s])
    case Star(e) => ExprVal(w, p, body, e, load)
    case Strange => Err(Unsupported, p)
  }

  /** A file is parsed before its list is asked for. */
  function Loaded(w: World, q: Path, load: Path -> Outcome): Outcome
    requires q in w.files
  {
    if w.files[q].Unparsable? then Err(CannotParse, q) else load(q)
  }

  predicate Targets(s: Stmt) { (s.Assign? || s.AugAssign?) && s.toAll }

  /** The statements `rest` of the body, after the list came to `result`. */
  function StmtsVal(w: World, p: Path, body: seq<Stmt>, rest: seq<Stmt>, result: Option<seq<string>>, load: Path -> Outcome): Outcome
    decreases |rest|
  {
    if rest == [] then if result.None? then Err(NotDefined, p) else Ok(result.value)
    else if !Targets(rest[0]) then StmtsVal(w, p, body, rest[1..], result, load)
    else if rest[0].AugAssign? && !rest[0].isAdd then Err(BadAugment, p)
    else
      var v := ExprVal(w, p, body, rest[0].value, load);
      if !v.Ok? then v
      else if rest[0].AugAssign? then
        if result.None? then Err(ExtendedFirst, p) else StmtsVal(w, p, body, rest[1..], Some(result.value + v.names), load)
      else StmtsVal(w, p, body, rest[1..], Some(v.names), load)
  }

  /** A statement, or one inside it, assigns `__all__`. */
  predicate Deep(s: Stmt) {
    Targets(s) || (s.Compound? && exists i :: 0 <= i < |s.body| && Deep(s.body[i]))
  }

  predicate Nested(body: seq<Stmt>) {
    exists i, k :: 0 <= i < |body| && body[i].Compound? && 0 <= k < |body[i].body| && Deep(body[i].body[k])
  }

  function FileVal(w: World, p: Path, load: Path -> Outcome): Outcome
    requires p in w.files
  {
    if w.files[p].Unparsable? then Err(CannotParse, p)
    else if Nested(w.files[p].body) then Err(NestedScope, p)
    else StmtsVal(w, p, w.files[p].body, w.files[p].body, None, load)
  }

  /** _string_list: `active` holds the files whose lists are being evaluated. */
  function Eval(w: World, p: Path, active: set<Path>): Outcome
    requires p in w.files
    decreases w.files.Keys - active
  {
    if p in active then Cyclic(p)
    else
      assert p in w.files.Keys - active && p !in w.files.Keys - (active + {p});
      FileVal(w, p, q => if q in w.files then Eval(w, q, active + {p}) else Diverged)
  }

  function Loader(w: World, active: set<Path>): Path -> Outcome {
    q => if q in w.files then Eval(w, q, active) else Diverged
  }

  /** The meaning without a stack, to a depth of n references: it knows no cycles, it just does not end. */
  function Plain(w: World, p: Path, n: nat): Outcome
    requires p in w.files
    decreases n
  {
    if n == 0 then Diverged else FileVal(w, p, q => if q in w.files then Plain(w, q, n - 1) else Diverged)
  }

  function PlainLoader(w: World, n: nat): Path -> Outcome {
    q => if q in w.files then Plain(w, q, n) else Diverged
  }

  // ---------------------------------------------------------- where modules are found

  lemma FoundFrom(w: World, dir: seq<string>, level: nat, pre: seq<string>, x: string)
    requires 1 <= level <= |dir| + 1
    ensures ModuleFile(w, dir, level, pre + [x]) == Candidate(w, dir[..|dir| - (level - 1)] + pre, x)
  {
    var top := dir[..|dir| - (level - 1)];
    var base := top + (pre + [x]);
    assert base == (top + pre) + [x] && base[..|base| - 1] == top + pre;
  }

  /** MAIN. A relative import of level n starts n - 1 directories above the importing file's, and takes the module
      file of that name before the package. */
  lemma ModuleFileIs(w: World, dir: seq<string>, level: nat, pre: seq<string>, x: string)
    requires 1 <= level <= |dir| + 1
    ensures var q := ModuleFile(w, dir, level, pre + [x]);
      && (level == 1 ==> q == Candidate(w, dir + pre, x))
      && (level == 2 ==> q == Candidate(w, dir[..|dir| - 1] + pre, x))
      && q == Candidate(w, dir[..|dir| - (level - 1)] + pre, x)
  {
    hide ModuleFile, Candidate;
    FoundFrom(w, dir, level, pre, x);
    assert dir[..|dir|] == dir;
  }

  /** Above the root there is the root. */
  lemma AboveTheRoot(w: World, dir: seq<string>, level: nat, pre: seq<string>, x: string)
    requires level > |dir| + 1
    ensures ModuleFile(w, dir, level, pre + [x]) == Candidate(w, pre, x)
  {
    var base := [] + (pre + [x]);
    assert base == pre + [x] && base[..|base| - 1] == pre;
  }

  /** x.py in a directory, or else the package x. */
  function Candidate(w: World, dir: seq<string>, x: string): Option<Path> {
    if Path(dir, x + ".py") in w.files then Some(Path(dir, x + ".py"))
    else if Path(dir + [x], "__init__.py") in w.files then Some(Path(dir + [x], "__init__.py"))
    else None
  }

  /** The name that an import binds is its `as` name if it has one. */
  predicate Names(a: Alias, id: string) {
    if a.asname.Some? && a.asname.value != "" then a.asname.value == id else a.name == id
  }

  /** The file that the k-th name of statement s binds to `id`, if it is a relative import of an existing one. */
  function Binding(w: World, p: Path, s: Stmt, k: nat, id: string): Option<Path> {
    if s.ImportFrom? && s.level > 0 && k < |s.names| && Names(s.names[k], id)
    then ModuleFile(w, p.dir, s.level, (if s.origin.Some? then s.origin.value else []) + [s.names[k].name])
    else None
  }

  ghost predicate FirstName(w: World, p: Path, s: Stmt, k: nat, id: string, q: Path) {
    exists j: nat :: k <= j && Binding(w, p, s, j, id) == Some(q) && forall i: nat :: k <= i < j ==> Binding(w, p, s, i, id).None?
  }

  lemma {:induction false} NameFound(w: World, p: Path, s: Stmt, k: nat, id: string)
    requires s.ImportFrom? && s.level > 0 && k <= |s.names|
    ensures var q := FindInNames(w, p, s, s.names[k..], id);
      if q.None? then forall j: nat :: k <= j ==> Binding(w, p, s, j, id).None? else FirstName(w, p, s, k, id, q.value)
    decreases |s.names| - k
  {
    hide ModuleFile;
    if k < |s.names| {
      assert s.names[k..][0] == s.names[k] && s.names[k..][1..] == s.names[k + 1..];
      NameFound(w, p, s, k + 1, id);
      var here, later := Binding(w, p, s, k, id), FindInNames(w, p, s, s.names[k + 1..], id);
      assert FindInNames(w, p, s, s.names[k..], id) == if here.Some? then here else later;
      if here.None? && later.Some? {
        var j: nat :| k + 1 <= j && Binding(w, p, s, j, id) == later && forall i: nat :: k + 1 <= i < j ==> Binding(w, p, s, i, id).None?;
        assert forall i: nat :: k <= i < j ==> Binding(w, p, s, i, id).None?;
      }
    }
  }

  /** Statement i has the first binding of its names, and no statement before it has one. */
  ghost predicate BoundAt(w: World, p: Path, body: seq<Stmt>, from: nat, i: nat, id: string, q: Path) {
    from <= i < |body| && FirstName(w, p, body[i], 0, id, q) && forall h: nat :: from <= h < i ==> Unbound(w, p, body[h], id)
  }

  ghost predicate Unbound(w: World, p: Path, s: Stmt, id: string) { forall k: nat :: Binding(w, p, s, k, id).None? }

  /** MAIN. The module that is found is that of the first import statement and name that bind it to an existing
      file; none is found only if there is no such binding. */
  lemma {:induction false} FoundIsFirst(w: World, p: Path, body: seq<Stmt>, from: nat, id: string)
    requires from <= |body|
    ensures var q := FindModule(w, p, body[from..], id);
      if q.None? then forall i: nat :: from <= i < |body| ==> Unbound(w, p, body[i], id)
      else exists i: nat :: BoundAt(w, p, body, from, i, id, q.value)
    decreases |body| - from
  {
    hide FirstName, FindInNames, ModuleFile;
    if from < |body| {
      assert body[from..][0] == body[from] && body[from..][1..] == body[from + 1..];
      FoundIsFirst(w, p, body, from + 1, id);
      var s := body[from];
      var here := if s.ImportFrom? && s.level > 0 then FindInNames(w, p, s, s.names, id) else None;
      var later := FindModule(w, p, body[from + 1..], id);
      if s.ImportFrom? && s.level > 0 {
        assert s.names[0..] == s.names;
        NameFound(w, p, s, 0, id);
      }
      if here.Some? {
        assert BoundAt(w, p, body, from, from, id, here.value);
      } else {
        assert Unbound(w, p, s, id);
        if later.Some? {
          var i: nat :| BoundAt(w, p, body, from + 1, i, id, later.value);
          assert BoundAt(w, p, body, from, i, id, later.value);
        }
      }
    }
  }

  // --------------------------------------------------------------- what expressions mean

  /** One after the other: the first failure, or both lists. */
  function Then(a: Outcome, b: Outcome): Outcome {
    if !a.Ok? then a else if !b.Ok? then b else Ok(a.names + b.names)
  }

  function Strings(names: seq<string>): seq<Item> { seq(|names|, i requires 0 <= i < |names| => Str(names[i])) }

  lemma {:induction false} ItemsFrom(w: World, p: Path, body: seq<Stmt>, items: seq<Item>, acc: seq<string>, load: Path -> Outcome)
    ensures ItemsVal(w, p, body, items, acc, load) == Then(Ok(acc), ItemsVal(w, p, body, items, [], load))
    decreases |items|
  {
    hide ItemVal;
    if items == [] {
      assert acc + [] == acc;
    } else {
      var v := ItemVal(w, p, body, items[0], load);
      if v.Ok? {
        ItemsFrom(w, p, body, items[1..], acc + v.names, load);
        ItemsFrom(w, p, body, items[1..], [] + v.names, load);
        var rest := ItemsVal(w, p, body, items[1..], [], load);
        if rest.Ok? { assert acc + v.names + rest.names == acc + (v.names + rest.names) == acc + ([] + v.names + rest.names); }
      }
    }
  }

  lemma {:induction false} ItemsJoin(w: World, p: Path, body: seq<Stmt>, a: seq<Item>, b: seq<Item>, acc: seq<string>, load: Path -> Outcome)
    ensures var v := ItemsVal(w, p, body, a, acc, load);
      ItemsVal(w, p, body, a + b, acc, load) == if v.Ok? then ItemsVal(w, p, body, b, v.names, load) else v
    decreases |a|
  {
    hide ItemVal;
    if a == [] {
      assert a + b == b;
    } else {
      assert (a + b)[1..] == a[1..] + b;
      var v := ItemVal(w, p, body, a[0], load);
      if v.Ok? { ItemsJoin(w, p, body, a[1..], b, acc + v.names, load); }
    }
  }

  lemma {:induction false} StringsFrom(w: World, p: Path, body: seq<Stmt>, names: seq<string>, acc: seq<string>, load: Path -> Outcome)
    ensures ItemsVal(w, p, body, Strings(names), acc, load) == Ok(acc + names)
    decreases |names|
  {
    if names == [] {
      assert acc + [] == acc;
    } else {
      assert Strings(names)[1..] == Strings(names[1..]);
      StringsFrom(w, p, body, names[1..], acc + [names[0]], load);
      assert acc + [names[0]] + names[1..] == acc + names;
    }
  }

  /** MAIN. A literal list of strings is those strings in order. */
  lemma LiteralIsItself(w: World, p: Path, body: seq<Stmt>, names: seq<string>, load: Path -> Outcome)
    ensures ExprVal(w, p, body, ListLit(Strings(names)), load) == Ok(names)
  {
    StringsFrom(w, p, body, names, [], load);
  }

  /** MAIN. A starred expression adds all of its list; list(e) and tuple(e) are the list of e; other calls are refused. */
  lemma WrappersAddNothing(w: World, p: Path, body: seq<Stmt>, e: Expr, f: string, args: seq<Expr>, keywords: bool, load: Path -> Outcome)
    ensures ExprVal(w, p, body, ListLit([Star(e)]), load) == ExprVal(w, p, body, e, load)
    ensures ExprVal(w, p, body, Call("list", [e], false), load) == ExprVal(w, p, body, Call("tuple", [e], false), load) == ExprVal(w, p, body, e, load)
    ensures (f != "list" && f != "tuple") || |args| != 1 || keywords ==> ExprVal(w, p, body, Call(f, args, keywords), load) == Err(Unsupported, p)
  {
    var v := ExprVal(w, p, body, e, load);
    var none: seq<string> := [];
    assert ItemVal(w, p, body, Star(e), load) == v;
    assert [Star(e)][1..] == [];
    if v.Ok? {
      assert none + v.names == v.names;
      assert ItemsVal(w, p, body, [], v.names, load) == v;
      assert ItemsVal(w, p, body, [Star(e)], [], load) == v;
    }
  }

  /** MAIN. Joined literals and additions are the list of the first followed by that of the second, or the first failure. */
  lemma JoinsConcatenate(w: World, p: Path, body: seq<Stmt>, a: seq<Item>, b: seq<Item>, l: Expr, r: Expr, load: Path -> Outcome)
    ensures ExprVal(w, p, body, ListLit(a + b), load) == Then(ExprVal(w, p, body, ListLit(a), load), ExprVal(w, p, body, ListLit(b), load))
    ensures ExprVal(w, p, body, Add(l, r), load) == Then(ExprVal(w, p, body, l, load), ExprVal(w, p, body, r, load))
    ensures ExprVal(w, p, body, Add(ListLit(a), ListLit(b)), load) == ExprVal(w, p, body, ListLit(a + b), load)
  {
    hide ItemsVal;
    ItemsJoin(w, p, body, a, b, [], load);
    var v := ItemsVal(w, p, body, a, [], load);
    if v.Ok? { ItemsFrom(w, p, body, b, v.names, load); }
  }

  /** MAIN. `m.__all__` is the list of the file that m is bound to; an unknown m, a file that does not parse and any
      other element or expression are errors. */
  lemma ReferencesAreLists(w: World, p: Path, body: seq<Stmt>, m: string, a: seq<Item>, load: Path -> Outcome)
    ensures var q := FindModule(w, p, body, m); var v := ExprVal(w, p, body, ModuleAll(m), load);
      && (q.Some? && w.files[q.value].Module? ==> v == load(q.value))
      && (q.Some? && w.files[q.value].Unparsable? ==> v == Err(CannotParse, q.value))
      && (q.None? ==> v == Err(Unsupported, p))
    ensures ExprVal(w, p, body, Unknown, load) == Err(Unsupported, p) && ExprVal(w, p, body, NoValue, load) == Err(NoLineNumber, p)
    ensures ExprVal(w, p, body, ListLit(a), load).Ok? ==> ExprVal(w, p, body, ListLit(a + [Strange]), load) == Err(Unsupported, p)
  {
    ItemsJoin(w, p, body, a, [Strange], [], load);
  }

  // ------------------------------------------ evaluation depends on definite loads only

  ghost predicate Extends(w: World, a: Path -> Outcome, b: Path -> Outcome) {
    forall q :: q in w.files && Definite(a(q)) ==> b(q) == a(q)
  }

  lemma {:induction false} ExprAgrees(w: World, p: Path, body: seq<Stmt>, e: Expr, a: Path -> Outcome, b: Path -> Outcome)
    requires Extends(w, a, b) && Definite(ExprVal(w, p, body, e, a))
    ensures ExprVal(w, p, body, e, b) == ExprVal(w, p, body, e, a)
    decreases e, 0
  {
    match e
    case ListLit(items) => ItemsAgree(w, p, body, items, [], a, b);
    case Add(left, right) =>
      ExprAgrees(w, p, body, left, a, b);
      if ExprVal(w, p, body, left, a).Ok? { ExprAgrees(w, p, body, right, a, b); }
    case Call(func, args, keywords) =>
      if (func == "list" || func == "tuple") && |args| == 1 && !keywords { ExprAgrees(w, p, body, args[0], a, b); }
    case ModuleAll(m) =>
    case Unknown =>
    case NoValue =>
  }

  lemma {:induction false} ItemsAgree(w: World, p: Path, body: seq<Stmt>, items: seq<Item>, acc: seq<string>, a: Path -> Outcome, b: Path -> Outcome)
    requires Extends(w, a, b) && Definite(ItemsVal(w, p, body, items, acc, a))
    ensures ItemsVal(w, p, body, items, acc, b) == ItemsVal(w, p, body, items, acc, a)
    decreases items, 1
  {
    if items != [] {
      ItemAgrees(w, p, body, items[0], a, b);
      var v := ItemVal(w, p, body, items[0], a);
      if v.Ok? { ItemsAgree(w, p, body, items[1..], acc + v.names, a, b); }
    }
  }

  lemma {:induction false} ItemAgrees(w: World, p: Path, body: seq<Stmt>, item: Item, a: Path -> Outcome, b: Path -> Outcome)
    requires Extends(w, a, b) && Definite(ItemVal(w, p, body, item, a))
    ensures ItemVal(w, p, body, item, b) == ItemVal(w, p, body, item, a)
    decreases item, 1
  {
    if item.Star? { ExprAgrees(w, p, body, item.e, a, b); }
  }

  lemma {:induction false} StmtsAgree(w: World, p: Path, body: seq<Stmt>, rest: seq<Stmt>, result: Option<seq<string>>, a: Path -> Outcome, b: Path -> Outcome)
    requires Extends(w, a, b) && Definite(StmtsVal(w, p, body, rest, result, a))
    ensures StmtsVal(w, p, body, rest, result, b) == StmtsVal(w, p, body, rest, result, a)
    decreases |rest|
  {
    if rest != [] {
      if !Targets(rest[0]) {
        StmtsAgree(w, p, body, rest[1..], result, a, b);
      } else if !(rest[0].AugAssign? && !rest[0].isAdd) {
        ExprAgrees(w, p, body, rest[0].value, a, b);
        var v := ExprVal(w, p, body, rest[0].value, a);
        if v.Ok? {
          if !rest[0].AugAssign? {
            StmtsAgree(w, p, body, rest[1..], Some(v.names), a, b);
          } else if result.Some? {
            StmtsAgree(w, p, body, rest[1..], Some(result.value + v.names), a, b);
          }
        }
      }
    }
  }

  lemma FileAgrees(w: World, p: Path, a: Path -> Outcome, b: Path -> Outcome)
    requires p in w.files && Extends(w, a, b) && Definite(FileVal(w, p, a))
    ensures FileVal(w, p, b) == FileVal(w, p, a)
  {
    hide Nested, Extends, StmtsVal;
    if w.files[p].Module? && !Nested(w.files[p].body) {
      StmtsAgree(w, p, w.files[p].body, w.files[p].body, None, a, b);
    }
  }

  lemma EvalStep(w: World, p: Path, active: set<Path>)
    requires p in w.files && p !in active
    ensures Eval(w, p, active) == FileVal(w, p, Loader(w, active + {p}))
  {
    hide FileVal;
    assert (q => if q in w.files then Eval(w, q, active + {p}) else Diverged) == Loader(w, active + {p});
  }

  lemma PlainStep(w: World, p: Path, n: nat)
    requires p in w.files && n > 0
    ensures Plain(w, p, n) == FileVal(w, p, PlainLoader(w, n - 1))
  {
    hide FileVal;
    assert (q => if q in w.files then Plain(w, q, n - 1) else Diverged) == PlainLoader(w, n - 1);
  }

  // --------------------------------------------------------- cycles and the stack

  /** More depth changes no answer. */
  lemma {:induction false} PlainGrows(w: World, p: Path, n: nat, m: nat)
    requires p in w.files && n <= m && Definite(Plain(w, p, n))
    ensures Plain(w, p, m) == Plain(w, p, n)
    decreases n
  {
    hide FileVal;
    if n > 0 {
      PlainStep(w, p, n);
      PlainStep(w, p, m);
      forall q | q in w.files && Definite(Plain(w, q, n - 1)) ensures Plain(w, q, m - 1) == Plain(w, q, n - 1) {
        PlainGrows(w, q, n - 1, m - 1);
      }
      FileAgrees(w, p, PlainLoader(w, n - 1), PlainLoader(w, m - 1));
    }
  }

  lemma Smaller(w: World, p: Path, active: set<Path>)
    requires p in w.files && p !in active
    ensures |w.files.Keys - (active + {p})| + 1 == |w.files.Keys - active|
  {
    assert w.files.Keys - active == (w.files.Keys - (active + {p})) + {p};
  }

  /** A definite answer is the plain meaning, which needs no more depth than there are files left. */
  lemma {:induction false} DefiniteIsPlain(w: World, p: Path, active: set<Path>)
    requires p in w.files && Definite(Eval(w, p, active))
    ensures Plain(w, p, |w.files.Keys - active|) == Eval(w, p, active)
    decreases |w.files.Keys - active|
  {
    hide FileVal;
    Smaller(w, p, active);
    var n, inner := |w.files.Keys - active|, active + {p};
    EvalStep(w, p, active);
    PlainStep(w, p, n);
    forall q | q in w.files && Definite(Eval(w, q, inner)) ensures Plain(w, q, n - 1) == Eval(w, q, inner) {
      DefiniteIsPlain(w, q, inner);
    }
    FileAgrees(w, p, Loader(w, inner), PlainLoader(w, n - 1));
  }

  /** If the plain meaning ends, and it does so before that of any file on the stack, there is no cycle. */
  lemma {:induction false} PlainIsDefinite(w: World, p: Path, active: set<Path>, n: nat)
    requires p in w.files && Definite(Plain(w, p, n))
    requires forall a :: a in active && a in w.files ==> !Definite(Plain(w, a, n))
    ensures Eval(w, p, active) == Plain(w, p, n)
    decreases n
  {
    hide FileVal;
    if Definite(Plain(w, p, n - 1)) {
      PlainGrows(w, p, n - 1, n);
      forall a | a in active && a in w.files ensures !Definite(Plain(w, a, n - 1)) {
        if Definite(Plain(w, a, n - 1)) { PlainGrows(w, a, n - 1, n); }
      }
      PlainIsDefinite(w, p, active, n - 1);
    } else {
      var inner := active + {p};
      EvalStep(w, p, active);
      PlainStep(w, p, n);
      forall q | q in w.files && Definite(Plain(w, q, n - 1)) ensures Eval(w, q, inner) == Plain(w, q, n - 1) {
        forall a | a in inner && a in w.files ensures !Definite(Plain(w, a, n - 1)) {
          if Definite(Plain(w, a, n - 1)) { PlainGrows(w, a, n - 1, n); }
        }
        PlainIsDefinite(w, q, inner, n - 1);
      }
      FileAgrees(w, p, PlainLoader(w, n - 1), Loader(w, inner));
    }
  }

  lemma {:induction false} ExprNeverDiverges(w: World, p: Path, body: seq<Stmt>, e: Expr, load: Path -> Outcome)
    requires forall q :: q in w.files ==> !load(q).Diverged?
    ensures !ExprVal(w, p, body, e, load).Diverged?
    decreases e, 0
  {
    match e
    case ListLit(items) => ItemsNeverDiverge(w, p, body, items, [], load);
    case Add(left, right) =>
      ExprNeverDiverges(w, p, body, left, load);
      ExprNeverDiverges(w, p, body, right, load);
    case Call(func, args, keywords) =>
      if |args| == 1 { ExprNeverDiverges(w, p, body, args[0], load); }
    case ModuleAll(m) =>
    case Unknown =>
    case NoValue =>
  }

  lemma {:induction false} ItemsNeverDiverge(w: World, p: Path, body: seq<Stmt>, items: seq<Item>, acc: seq<string>, load: Path -> Outcome)
    requires forall q :: q in w.files ==> !load(q).Diverged?
    ensures !ItemsVal(w, p, body, items, acc, load).Diverged?
    decreases items, 1
  {
    if items != [] {
      ItemNeverDiverges(w, p, body, items[0], load);
      var v := ItemVal(w, p, body, items[0], load);
      if v.Ok? { ItemsNeverDiverge(w, p, body, items[1..], acc + v.names, load); }
    }
  }

  lemma {:induction false} ItemNeverDiverges(w: World, p: Path, body: seq<Stmt>, item: Item, load: Path -> Outcome)
    requires forall q :: q in w.files ==> !load(q).Diverged?
    ensures !ItemVal(w, p, body, item, load).Diverged?
    decreases item, 1
  {
    if item.Star? { ExprNeverDiverges(w, p, body, item.e, load); }
  }

  lemma {:induction false} StmtsNeverDiverge(w: World, p: Path, body: seq<Stmt>, rest: seq<Stmt>, result: Option<seq<string>>, load: Path -> Outcome)
    requires forall q :: q in w.files ==> !load(q).Diverged?
    ensures !StmtsVal(w, p, body, rest, result, load).Diverged?
    decreases |rest|
  {
    if rest != [] {
      if !Targets(rest[0]) {
        StmtsNeverDiverge(w, p, body, rest[1..], result, load);
      } else {
        ExprNeverDiverges(w, p, body, rest[0].value, load);
        var v := ExprVal(w, p, body, rest[0].value, load);
        if v.Ok? {
          StmtsNeverDiverge(w, p, body, rest[1..], Some(v.names), load);
          if result.Some? { StmtsNeverDiverge(w, p, body, rest[1..], Some(result.value + v.names), load); }
        }
      }
    }
  }

  lemma {:induction false} EvalEnds(w: World, p: Path, active: set<Path>)
    requires p in w.files
    ensures !Eval(w, p, active).Diverged?
    decreases |w.files.Keys - active|
  {
    hide StmtsVal, Nested;
    if p !in active {
      Smaller(w, p, active);
      EvalStep(w, p, active);
      forall q | q in w.files ensures !Loader(w, active + {p})(q).Diverged? {
        EvalEnds(w, q, active + {p});
      }
      if w.files[p].Module? {
        StmtsNeverDiverge(w, p, w.files[p].body, w.files[p].body, None, Loader(w, active + {p}));
      }
    }
  }

  /** MAIN. The cycle error is raised exactly when evaluation without a stack would never end. */
  lemma CycleExactlyWhenEndless(w: World, p: Path)
    requires p in w.files
    ensures Eval(w, p, {}).Cyclic? <==> forall n: nat :: !Definite(Plain(w, p, n))
  {
    hide Eval, Plain;
    EvalEnds(w, p, {});
    if Eval(w, p, {}).Cyclic? {
      forall n: nat ensures !Definite(Plain(w, p, n)) {
        if Definite(Plain(w, p, n)) { PlainIsDefinite(w, p, {}, n); }
      }
    } else {
      DefiniteIsPlain(w, p, {});
    }
  }

  /** MAIN. Otherwise the answer does not depend on the stack: it is the plain meaning of the file. */
  lemma StackDoesNotMatter(w: World, p: Path, active: set<Path>, active': set<Path>)
    requires p in w.files && !Eval(w, p, active).Cyclic? && !Eval(w, p, active').Cyclic?
    ensures Eval(w, p, active) == Eval(w, p, active') == Eval(w, p, {})
  {
    hide Eval, Plain;
    EvalEnds(w, p, active);
    EvalEnds(w, p, active');
    DefiniteIsPlain(w, p, active);
    DefiniteIsPlain(w, p, active');
    PlainIsDefinite(w, p, {}, |w.files.Keys - active|);
    PlainIsDefinite(w, p, {}, |w.files.Keys - active'|);
  }

  // ---------------------------------------------------- assignments and additions

  /** Statement i sets or extends the list, and its value is known. */
  predicate Counts(w: World, p: Path, body: seq<Stmt>, i: int, load: Path -> Outcome)
    requires 0 <= i < |body|
  {
    Targets(body[i]) ==> (body[i].Assign? || body[i].isAdd) && ExprVal(w, p, body, body[i].value, load).Ok?
  }

  /** The values of the statements from i on, one after the other. */
  function Joined(w: World, p: Path, body: seq<Stmt>, i: nat, load: Path -> Outcome): seq<string>
    requires i <= |body|
    decreases |body| - i
  {
    if i == |body| then []
    else
      var v := if Targets(body[i]) then ExprVal(w, p, body, body[i].value, load) else Ok([]);
      (if v.Ok? then v.names else []) + Joined(w, p, body, i + 1, load)
  }

  lemma {:induction false} Extended(w: World, p: Path, body: seq<Stmt>, i: nat, result: seq<string>, load: Path -> Outcome)
    requires i <= |body| && forall k :: i <= k < |body| ==> Counts(w, p, body, k, load) && !(Targets(body[k]) && body[k].Assign?)
    ensures StmtsVal(w, p, body, body[i..], Some(result), load) == Ok(result + Joined(w, p, body, i, load))
    decreases |body| - i
  {
    hide ExprVal;
    if i < |body| {
      assert body[i..][1..] == body[i + 1..];
      assert Counts(w, p, body, i, load);
      if Targets(body[i]) {
        var v := ExprVal(w, p, body, body[i].value, load);
        Extended(w, p, body, i + 1, result + v.names, load);
        assert result + v.names + Joined(w, p, body, i + 1, load) == result + (v.names + Joined(w, p, body, i + 1, load));
      } else {
        Extended(w, p, body, i + 1, result, load);
        assert [] + Joined(w, p, body, i + 1, load) == Joined(w, p, body, i + 1, load);
      }
    }
  }

  /** Whatever came before the last assignment does not matter. */
  lemma {:induction false} FromAssignment(w: World, p: Path, body: seq<Stmt>, i: nat, last: nat, result: Option<seq<string>>, load: Path -> Outcome)
    requires i <= last < |body| && Targets(body[last]) && body[last].Assign? && (result.Some? || !ExtendsEarly(body, i, last))
    requires forall k :: i <= k < |body| ==> Counts(w, p, body, k, load)
    requires forall k :: last < k < |body| ==> !(Targets(body[k]) && body[k].Assign?)
    ensures StmtsVal(w, p, body, body[i..], result, load) == Ok(Joined(w, p, body, last, load))
    decreases last - i
  {
    hide ExprVal;
    assert body[i..][1..] == body[i + 1..];
    assert Counts(w, p, body, i, load);
    if i == last {
      var v := ExprVal(w, p, body, body[i].value, load);
      Extended(w, p, body, i + 1, v.names, load);
    } else if !Targets(body[i]) {
      FromAssignment(w, p, body, i + 1, last, result, load);
    } else {
      var v := ExprVal(w, p, body, body[i].value, load);
      FromAssignment(w, p, body, i + 1, last, if body[i].Assign? then Some(v.names) else Some(result.value + v.names), load);
    }
  }

  /** The first statement from i on that targets the list extends it. */
  predicate ExtendsEarly(body: seq<Stmt>, i: nat, last: nat)
    requires i <= last < |body|
    decreases last - i
  {
    if Targets(body[i]) then body[i].AugAssign? else i < last && ExtendsEarly(body, i + 1, last)
  }

  /** The last assignment among the first n statements, or -1. */
  function LastAssign(body: seq<Stmt>, n: nat): (last: int)
    requires n <= |body|
    ensures -1 <= last < n && (last >= 0 ==> Targets(body[last]) && body[last].Assign?)
    ensures forall k :: last < k < n ==> !(Targets(body[k]) && body[k].Assign?)
  {
    if n == 0 then -1 else if Targets(body[n - 1]) && body[n - 1].Assign? then n - 1 else LastAssign(body, n - 1)
  }

  lemma {:induction false} OkCounts(w: World, p: Path, body: seq<Stmt>, i: nat, result: Option<seq<string>>, load: Path -> Outcome)
    requires i <= |body| && StmtsVal(w, p, body, body[i..], result, load).Ok?
    ensures forall k :: i <= k < |body| ==> Counts(w, p, body, k, load)
    ensures result.None? ==> exists k :: i <= k < |body| && Targets(body[k]) && body[k].Assign?
    decreases |body| - i
  {
    hide ExprVal;
    if i < |body| {
      assert body[i..][1..] == body[i + 1..];
      if !Targets(body[i]) {
        OkCounts(w, p, body, i + 1, result, load);
      } else {
        var v := ExprVal(w, p, body, body[i].value, load);
        OkCounts(w, p, body, i + 1, if body[i].Assign? then Some(v.names) else Some(result.value + v.names), load);
      }
    }
  }

  /** MAIN. A file has a list exactly when nothing in a nested scope assigns it, every statement that targets it
      is an assignment or += whose value is known, and an assignment comes first. The list is then
      the value of the last assignment followed by those of the additions after it, in order. */
  lemma ListIsConcatenation(w: World, p: Path, load: Path -> Outcome)
    requires p in w.files && w.files[p].Module?
    ensures var body := w.files[p].body; var last := LastAssign(body, |body|);
      && (FileVal(w, p, load).Ok? <==>
          !Nested(body) && last >= 0 && !ExtendsEarly(body, 0, last) && forall k :: 0 <= k < |body| ==> Counts(w, p, body, k, load))
      && (FileVal(w, p, load).Ok? ==> last >= 0 && FileVal(w, p, load).names == Joined(w, p, body, last, load))
  {
    hide Nested, ExprVal, Counts;
    var body := w.files[p].body;
    var last := LastAssign(body, |body|);
    assert body[0..] == body;
    if FileVal(w, p, load).Ok? {
      OkCounts(w, p, body, 0, None, load);
    }
    if !Nested(body) && last >= 0 && forall k :: 0 <= k < |body| ==> Counts(w, p, body, k, load) {
      if ExtendsEarly(body, 0, last) {
        EarlyExtension(w, p, body, 0, last, load);
      } else {
        FromAssignment(w, p, body, 0, last, None, load);
      }
    }
  }

  lemma {:induction false} EarlyExtension(w: World, p: Path, body: seq<Stmt>, i: nat, last: nat, load: Path -> Outcome)
    requires i <= last < |body| && ExtendsEarly(body, i, last) && forall k :: i <= k < |body| ==> Counts(w, p, body, k, load)
    ensures StmtsVal(w, p, body, body[i..], None, load) == Err(ExtendedFirst, p)
    decreases last - i
  {
    hide ExprVal;
    assert body[i..][1..] == body[i + 1..];
    assert Counts(w, p, body, i, load);
    if !Targets(body[i]) {
      EarlyExtension(w, p, body, i + 1, last, load);
    }
  }

  // ------------------------------------------------------------ statements, one by one

  /** Statements that leave the list alone. */
  predicate Ignored(s: Stmt) {
    match s
    case Assign(toAll, _) => !toAll
    case AugAssign(toAll, _, _) => !toAll
    case ImportFrom(_, _, _) => true
    case Compound(_) => true
    case Simple => true
  }

  lemma {:induction false} IgnoredSkipped(w: World, p: Path, body: seq<Stmt>, skip: seq<Stmt>, rest: seq<Stmt>, result: Option<seq<string>>, load: Path -> Outcome)
    requires forall i :: 0 <= i < |skip| ==> Ignored(skip[i])
    ensures StmtsVal(w, p, body, skip + rest, result, load) == StmtsVal(w, p, body, rest, result, load)
    decreases |skip|
  {
    hide ExprVal;
    if skip == [] {
      assert skip + rest == rest;
    } else {
      assert (skip + rest)[1..] == skip[1..] + rest;
      IgnoredSkipped(w, p, body, skip[1..], rest, result, load);
    }
  }

  /** MAIN. `__all__ = a`, with `__all__ += b` after it, among statements that leave the list alone, is the list of a
      followed by that of b; an assignment instead of the addition replaces it. */
  lemma AssignThenExtend(w: World, p: Path, x: seq<Stmt>, y: seq<Stmt>, z: seq<Stmt>, a: Expr, b: Expr, load: Path -> Outcome)
    requires p in w.files && (forall i :: 0 <= i < |x| ==> Ignored(x[i])) && (forall i :: 0 <= i < |y| ==> Ignored(y[i])) && (forall i :: 0 <= i < |z| ==> Ignored(z[i]))
    ensures var body := x + ([Assign(true, a)] + (y + ([AugAssign(true, true, b)] + (z + []))));
      w.files[p] == Module(body) && !Nested(body) ==>
        FileVal(w, p, load) == Then(ExprVal(w, p, body, a, load), ExprVal(w, p, body, b, load))
    ensures var body := x + ([Assign(true, a)] + (y + ([Assign(true, b)] + (z + []))));
      w.files[p] == Module(body) && !Nested(body) && ExprVal(w, p, body, a, load).Ok? ==> FileVal(w, p, load) == ExprVal(w, p, body, b, load)
    ensures var body := x + []; w.files[p] == Module(body) && !Nested(body) ==> FileVal(w, p, load) == Err(NotDefined, p)
  {
    hide Nested, ExprVal;
    TwoStatements(w, p, x, y, z, Assign(true, a), AugAssign(true, true, b), load);
    TwoStatements(w, p, x, y, z, Assign(true, a), Assign(true, b), load);
    IgnoredSkipped(w, p, x + [], x, [], None, load);
  }

  /** After a first assignment, the second statement decides. */
  lemma TwoStatements(w: World, p: Path, x: seq<Stmt>, y: seq<Stmt>, z: seq<Stmt>, s: Stmt, t: Stmt, load: Path -> Outcome)
    requires (forall i :: 0 <= i < |x| ==> Ignored(x[i])) && (forall i :: 0 <= i < |y| ==> Ignored(y[i])) && (forall i :: 0 <= i < |z| ==> Ignored(z[i]))
    requires s.Assign? && s.toAll && ((t.Assign? && t.toAll) || (t.AugAssign? && t.toAll && t.isAdd))
    ensures var body := x + ([s] + (y + ([t] + (z + []))));
      var a, b := ExprVal(w, p, body, s.value, load), ExprVal(w, p, body, t.value, load);
      StmtsVal(w, p, body, body, None, load) == if !a.Ok? then a else if !b.Ok? then b else if t.Assign? then b else Ok(a.names + b.names)
  {
    hide ExprVal;
    var last := [t] + (z + []);
    var mid := [s] + (y + last);
    var body := x + mid;
    var a, b := ExprVal(w, p, body, s.value, load), ExprVal(w, p, body, t.value, load);
    IgnoredSkipped(w, p, body, x, mid, None, load);
    assert mid[0] == s && mid[1..] == y + last;
    if a.Ok? {
      IgnoredSkipped(w, p, body, y, last, Some(a.names), load);
      assert last[0] == t && last[1..] == z + [];
      if b.Ok? {
        IgnoredSkipped(w, p, body, z, [], if t.Assign? then Some(b.names) else Some(a.names + b.names), load);
      }
    }
  }

  /** The statements before i evaluate, and none extends the list before it is assigned. */
  predicate FineBefore(w: World, p: Path, body: seq<Stmt>, i: nat, load: Path -> Outcome)
    requires i <= |body|
  {
    forall k :: 0 <= k < i ==> Counts(w, p, body, k, load) && (Targets(body[k]) && body[k].AugAssign? ==> LastAssign(body, k) >= 0)
  }

  lemma {:induction false} Reaches(w: World, p: Path, body: seq<Stmt>, i: nat, load: Path -> Outcome) returns (result: Option<seq<string>>)
    requires i <= |body| && FineBefore(w, p, body, i, load)
    ensures StmtsVal(w, p, body, body, None, load) == StmtsVal(w, p, body, body[i..], result, load)
    ensures result.Some? <==> LastAssign(body, i) >= 0
    decreases i
  {
    hide ExprVal;
    if i == 0 {
      result := None;
      assert body[0..] == body;
    } else {
      var k := i - 1;
      var before := Reaches(w, p, body, k, load);
      assert body[k..][0] == body[k] && body[k..][1..] == body[i..];
      assert Counts(w, p, body, k, load);
      result := before;
      if Targets(body[k]) {
        var v := ExprVal(w, p, body, body[k].value, load);
        result := if body[k].Assign? then Some(v.names) else Some(before.value + v.names);
      }
    }
  }

  /** MAIN. The first statement that goes wrong decides the error: an augmented assignment other than +=, a value that
      fails, or an addition before any assignment, in this order. */
  lemma FirstErrorWins(w: World, p: Path, i: nat, load: Path -> Outcome)
    requires p in w.files && w.files[p].Module? && !Nested(w.files[p].body) && i < |w.files[p].body|
    requires FineBefore(w, p, w.files[p].body, i, load) && Targets(w.files[p].body[i])
    ensures var body := w.files[p].body; var s := body[i]; var v := ExprVal(w, p, body, s.value, load);
      && (s.AugAssign? && !s.isAdd ==> FileVal(w, p, load) == Err(BadAugment, p))
      && ((s.Assign? || s.isAdd) && !v.Ok? ==> FileVal(w, p, load) == v)
      && (s.AugAssign? && s.isAdd && v.Ok? && LastAssign(body, i) < 0 ==> FileVal(w, p, load) == Err(ExtendedFirst, p))
  {
    hide ExprVal, Nested;
    var body := w.files[p].body;
    var result := Reaches(w, p, body, i, load);
    assert body[i..][0] == body[i];
  }

  // ------------------------------------------------------------------ the two functions

  /** _export_list_value. */
  method ExportListValue(w: World, p: Path, body: seq<Stmt>, e: Expr, active: set<Path>) returns (r: Outcome)
    ensures r == ExprVal(w, p, body, e, Loader(w, active))
    decreases |w.files.Keys - active|, 1, e
  {
    match e
    case ListLit(items) =>
      var result: seq<string> := [];
      for i := 0 to |items|
        invariant ItemsVal(w, p, body, items, [], Loader(w, active)) == ItemsVal(w, p, body, items[i..], result, Loader(w, active))
      {
        assert items[i..][0] == items[i] && items[i..][1..] == items[i + 1..];
        match items[i]
        case Star(inner) =>
          var v := ExportListValue(w, p, body, inner, active);
          if !v.Ok? { return v; }
          result := result + v.names;
        case Str(s) => result := result + [s];
        case Strange => return Err(Unsupported, p);
      }
      return Ok(result);
    case Add(left, right) =>
      var a := ExportListValue(w, p, body, left, active);
      if !a.Ok? { return a; }
      var b := ExportListValue(w, p, body, right, active);
      if !b.Ok? { return b; }
      return Ok(a.names + b.names);
    case Call(func, args, keywords) =>
      if (func == "list" || func == "tuple") && |args| == 1 && !keywords {
        r := ExportListValue(w, p, body, args[0], active);
        return;
      }
      return Err(Unsupported, p);
    case ModuleAll(m) =>
      var q := FindRelativeModule(w, p, body, m);
      if q.Some? {
        if w.files[q.value].Unparsable? { return Err(CannotParse, q.value); }
        r := StringList(w, q.value, active);
        return;
      }
      return Err(Unsupported, p);
    case Unknown => return Err(Unsupported, p);
    case NoValue => return Err(NoLineNumber, p);
  }

  /** Its loops over the relative imports. */
  method FindRelativeModule(w: World, p: Path, body: seq<Stmt>, id: string) returns (q: Option<Path>)
    ensures q == FindModule(w, p, body, id)
  {
    for i := 0 to |body|
      invariant FindModule(w, p, body, id) == FindModule(w, p, body[i..], id)
    {
      assert body[i..][0] == body[i] && body[i..][1..] == body[i + 1..];
      if body[i].ImportFrom? && body[i].level > 0 {
        var names := body[i].names;
        for k := 0 to |names|
          invariant FindInNames(w, p, body[i], names, id) == FindInNames(w, p, body[i], names[k..], id)
        {
          assert names[k..][0] == names[k] && names[k..][1..] == names[k + 1..];
          if Bound(names[k]) == id {
            q := ModuleFile(w, p.dir, body[i].level, Target(body[i], names[k]));
            if q.Some? { return; }
          }
        }
      }
    }
    q := None;
  }

  /** _string_list, for the name `__all__` of a file that has been parsed. */
  method StringList(w: World, p: Path, active: set<Path>) returns (r: Outcome)
    requires p in w.files && w.files[p].Module?
    ensures r == Eval(w, p, active)
    decreases |w.files.Keys - active|, 0
  {
    hide ExprVal, Deep, Eval;
    if p in active {
      OnStack(w, p, active);
      return Cyclic(p);
    }
    EvalStep(w, p, active);
    Smaller(w, p, active);
    var inner := active + {p};
    var body := w.files[p].body;
    var nested := WalkFindsNested(body);
    if nested { return Err(NestedScope, p); }
    var result: Option<seq<string>> := None;
    assert body[0..] == body;
    for i := 0 to |body|
      invariant StmtsVal(w, p, body, body, None, Loader(w, inner)) == StmtsVal(w, p, body, body[i..], result, Loader(w, inner))
    {
      assert body[i..][0] == body[i] && body[i..][1..] == body[i + 1..];
      if Targets(body[i]) {
        if body[i].AugAssign? && !body[i].isAdd { return Err(BadAugment, p); }
        var values := ExportListValue(w, p, body, body[i].value, inner);
        if !values.Ok? { return values; }
        if body[i].AugAssign? {
          if result.None? { return Err(ExtendedFirst, p); }
          result := Some(result.value + values.names);
        } else {
          result := Some(values.names);
        }
      }
    }
    if result.None? { return Err(NotDefined, p); }
    return Ok(result.value);
  }

  /** MAIN. A file on the stack is a cycle; any other is evaluated with itself on the stack, after the checks that it
      parses and that nothing in a nested scope assigns its list. */
  lemma EvalIs(w: World, p: Path, active: set<Path>)
    requires p in w.files
    ensures p in active ==> Eval(w, p, active) == Cyclic(p)
    ensures p !in active ==> Eval(w, p, active) == FileVal(w, p, Loader(w, active + {p}))
    ensures p !in active && w.files[p].Unparsable? ==> Eval(w, p, active) == Err(CannotParse, p)
    ensures p !in active && w.files[p].Module? && Nested(w.files[p].body) ==> Eval(w, p, active) == Err(NestedScope, p)
    ensures forall q :: q in w.files ==> Loader(w, active)(q) == Eval(w, q, active)
  {
    hide StmtsVal, Nested;
    if p !in active { EvalStep(w, p, active); }
  }

  lemma OnStack(w: World, p: Path, active: set<Path>)
    requires p in w.files && p in active
    ensures Eval(w, p, active) == Cyclic(p)
  {
  }

  // ------------------------------------------------------------ the walk for nested scopes

  /** No compound statements. */
  predicate Flat(body: seq<Stmt>) { forall i :: 0 <= i < |body| ==> !body[i].Compound? }

  /** MAIN. An assignment counts as nested however deep it is below a compound statement, and only then: assignments
      at module scope do not. */
  lemma NestedIs(x: seq<Stmt>, y: seq<Stmt>, z: seq<Stmt>, u: seq<Stmt>, s: Stmt, v: Expr, isAdd: bool)
    ensures Deep(Assign(true, v)) && Deep(AugAssign(true, isAdd, v))
    ensures !Deep(Assign(false, v)) && !Deep(AugAssign(false, isAdd, v)) && !Deep(Simple)
    ensures Deep(s) ==> Deep(Compound(x + [s] + y)) && Nested(z + [Compound(x + [s] + y)] + u)
    ensures Flat(x) ==> !Nested(x)
    ensures AnyDeep(x) <==> Deep(Compound(x))
  {
    if Deep(s) {
      var b := x + [s] + y;
      assert b[|x|] == s;
      assert Deep(Compound(b).body[|x|]);
      var m := z + [Compound(b)] + u;
      assert m[|z|] == Compound(b) && Deep(m[|z|].body[|x|]);
    }
  }

  function Size(s: Stmt): nat { if s.Compound? then 1 + Sizes(s.body) else 1 }

  function Sizes(body: seq<Stmt>): nat { if body == [] then 0 else Size(body[0]) + Sizes(body[1..]) }

  lemma {:induction false} SizesAdd(a: seq<Stmt>, b: seq<Stmt>)
    ensures Sizes(a + b) == Sizes(a) + Sizes(b)
    decreases |a|
  {
    if a == [] {
      assert a + b == b;
    } else {
      assert (a + b)[1..] == a[1..] + b;
      SizesAdd(a[1..], b);
    }
  }

  predicate AnyDeep(body: seq<Stmt>) { exists i :: 0 <= i < |body| && Deep(body[i]) }

  lemma AnyDeepAdd(a: seq<Stmt>, b: seq<Stmt>)
    ensures AnyDeep(a + b) <==> AnyDeep(a) || AnyDeep(b)
  {
    hide Deep;
    forall i | 0 <= i < |a| && Deep(a[i]) ensures AnyDeep(a + b) { assert (a + b)[i] == a[i]; }
    forall i | 0 <= i < |b| && Deep(b[i]) ensures AnyDeep(a + b) { assert (a + b)[|a| + i] == b[i]; }
  }

  /** ast.walk below the top level: breadth first, until an assignment to `__all__` turns up. */
  method WalkFindsNested(body: seq<Stmt>) returns (found: bool)
    ensures found <==> Nested(body)
  {
    hide Deep, AnyDeep, Nested;
    var todo: seq<Stmt> := [];
    NoneDeep();
    NothingNested();
    for i := 0 to |body|
      invariant AnyDeep(todo) <==> Nested(body[..i])
    {
      NestedStep(body, i);
      if body[i].Compound? {
        AnyDeepAdd(todo, body[i].body);
        todo := todo + body[i].body;
      }
    }
    assert body[..|body|] == body;
    while todo != []
      invariant AnyDeep(todo) <==> Nested(body)
      decreases Sizes(todo)
    {
      var s := todo[0];
      var rest := todo[1..];
      var children := if s.Compound? then s.body else [];
      assert todo == [s] + rest;
      AnyDeepAdd([s], rest);
      AnyDeepAdd(rest, children);
      OneDeep(s);
      SizesAdd(rest, children);
      assert Sizes(todo) == Size(s) + Sizes(rest) && Sizes(children) < Size(s);
      if Targets(s) { return true; }
      NoneDeep();
      todo := rest + children;
    }
    NoneDeep();
    return false;
  }

  lemma NoneDeep()
    ensures !AnyDeep([])
  {
  }

  lemma NothingNested()
    ensures !Nested([])
  {
  }

  lemma OneDeep(s: Stmt)
    ensures AnyDeep([s]) <==> Targets(s) || (s.Compound? && AnyDeep(s.body))
  {
    assert [s][0] == s;
    assert AnyDeep([s]) <==> Deep(s);
  }

  lemma NestedStep(body: seq<Stmt>, i: nat)
    requires i < |body|
    ensures Nested(body[..i + 1]) <==> Nested(body[..i]) || (body[i].Compound? && AnyDeep(body[i].body))
  {
    hide Deep;
    var a, b := body[..i], body[..i + 1];
    forall j, k | 0 <= j < |a| && a[j].Compound? && 0 <= k < |a[j].body| && Deep(a[j].body[k]) ensures Nested(b) { assert b[j] == a[j]; }
    forall k | body[i].Compound? && 0 <= k < |body[i].body| && Deep(body[i].body[k]) ensures Nested(b) { assert b[i] == body[i]; }
    forall j, k | 0 <= j < |b| && b[j].Compound? && 0 <= k < |b[j].body| && Deep(b[j].body[k])
      ensures Nested(a) || (body[i].Compound? && AnyDeep(body[i].body)) { if j < i { assert a[j] == b[j]; } }
  }
}
