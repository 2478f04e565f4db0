/** `initializeVariables` of engine/vars.go: the pipeline's variable
    declarations, in document order, turned into a variable store. */
module VarInit {
  import opened Base
  import opened Text
  import opened Variables

  /** `config.Variable`. */
  datatype Variable = Variable(
    name: string,
    value: string,
    random: string,
    randomChars: string,
    randomLength: int,
    postfix: string,
    prefix: string)

  /** `utils.RandomString(chars, length)`, which is not part of this model:
      the string drawn for the declaration at `index` on its `draw`-th call. */
  type RandomString = (string, int, nat, nat) -> string

  /** `%v` of a `config.Variable`: its fields in order, space-separated, in
      braces. */
  function Describe(v: Variable): string
  {
    "{" + v.name + " " + v.value + " " + v.random + " " + v.randomChars + " "
    + IntToString(v.randomLength) + " " + v.postfix + " " + v.prefix + "}"
  }

  /** The cell one declaration gives, or `None` for an unknown kind. The
      `random` field is looked at before `value`. */
  function CellFor(v: Variable, index: nat, rnd: RandomString): (c: Option<Cell>)
    ensures c.None? <==> v.random != "once" && v.random != "always" && v.value == ""
    ensures v.random == "once" ==> c == Some(Fixed(v.prefix + rnd(v.randomChars, v.randomLength, index, 0) + v.postfix))
    ensures v.random == "always" ==> c.Some? && c.value.Generator? && c.value.calls == 0
    ensures v.random != "once" && v.random != "always" && v.value != "" ==> c == Some(Fixed(v.prefix + v.value + v.postfix))
  {
    if v.random == "once" then
      Some(Fixed(v.prefix + rnd(v.randomChars, v.randomLength, index, 0) + v.postfix))
    else if v.random == "always" then
      Some(Generator((n: nat) => v.prefix + rnd(v.randomChars, v.randomLength, index, n) + v.postfix, 0))
    else if v.value != "" then
      Some(Fixed(v.prefix + v.value + v.postfix))
    else
      None
  }

  /** One iteration of the loop: the store with the declaration's cell
      added, or the error for an unknown kind. */
  function Extend(prev: map<string, Cell>, v: Variable, index: nat, rnd: RandomString): (r: Result<map<string, Cell>>)
    ensures !r.Panic?
  {
    match CellFor(v, index, rnd)
    case None => Err(Message("unknown variable type: " + Describe(v)))
    case Some(c) => Ok(prev[v.name := c])
  }

  /** The store after the first `n` declarations, or the error of the first
      unknown one. */
  function DeclareUpTo(decls: seq<Variable>, n: nat, rnd: RandomString): (r: Result<map<string, Cell>>)
    requires n <= |decls|
    ensures !r.Panic?
  {
    if n == 0 then Ok(map[])
    else
      match DeclareUpTo(decls, n - 1, rnd)
      case Ok(prev) => Extend(prev, decls[n - 1], n - 1, rnd)
      case Err(e) => Err(e)
      case Panic(p) => Panic(p)
  }

  function Declare(decls: seq<Variable>, rnd: RandomString): Result<map<string, Cell>>
  {
    DeclareUpTo(decls, |decls|, rnd)
  }

  /** `initializeVariables`: a loop over the declarations with an early
      return on the first unknown kind. */
  method InitializeVariables(decls: seq<Variable>, rnd: RandomString) returns (r: Result<Vars>)
    ensures r.Ok? <==> Declare(decls, rnd).Ok?
    ensures r.Ok? ==> fresh(r.value) && r.value.cells == Declare(decls, rnd).value
    ensures r.Err? ==> Declare(decls, rnd) == Err(r.error)
    ensures !r.Panic?
  {
    var vars := new Vars();
    var i := 0;
    while i < |decls|
      invariant 0 <= i <= |decls|
      invariant DeclareUpTo(decls, i, rnd) == Ok(vars.cells)
      invariant fresh(vars)
    {
      var v := decls[i];
      if v.random == "once" {
        vars.SetOnce(v.name, v.prefix + rnd(v.randomChars, v.randomLength, i, 0) + v.postfix);
      } else if v.random == "always" {
        var index := i;
        vars.SetGetter(v.name, (n: nat) => v.prefix + rnd(v.randomChars, v.randomLength, index, n) + v.postfix);
      } else if v.value != "" {
        vars.SetOnce(v.name, v.prefix + v.value + v.postfix);
      } else {
        FailurePersists(decls, i + 1, |decls|, rnd);
        return Err(Message("unknown variable type: " + Describe(v)));
      }
      i := i + 1;
    }
    r := Ok(vars);
  }

  // ---------------------------------------------------------------------
  // Properties.

  /** Once a declaration fails, the whole initialisation fails with its
      error: later declarations are not looked at. */
  lemma {:induction false} FailurePersists(decls: seq<Variable>, n: nat, m: nat, rnd: RandomString)
    requires n <= m <= |decls|
    requires DeclareUpTo(decls, n, rnd).Err?
    ensures DeclareUpTo(decls, m, rnd) == DeclareUpTo(decls, n, rnd)
    decreases m - n
  {
    if m > n {
      FailurePersists(decls, n, m - 1, rnd);
    }
  }

  /** Any unknown declaration makes the initialisation fail. */
  lemma {:induction false} UnknownDeclarationFails(decls: seq<Variable>, j: nat, rnd: RandomString)
    requires j < |decls| && CellFor(decls[j], j, rnd).None?
    ensures Declare(decls, rnd).Err?
  {
    assert DeclareUpTo(decls, j + 1, rnd).Err?;
    FailurePersists(decls, j + 1, |decls|, rnd);
  }

  /** Success means every declaration was known, and the store's names are
      exactly the declared names. */
  lemma {:induction false} DeclaredNames(decls: seq<Variable>, n: nat, rnd: RandomString)
    requires n <= |decls| && DeclareUpTo(decls, n, rnd).Ok?
    ensures forall j :: 0 <= j < n ==> CellFor(decls[j], j, rnd).Some?
    ensures DeclareUpTo(decls, n, rnd).value.Keys == set j | 0 <= j < n :: decls[j].name
  {
    if n > 0 {
      DeclaredNames(decls, n - 1, rnd);
    }
  }

  /** The last declaration of a name decides its cell: later definitions
      overwrite earlier ones. */
  lemma {:induction false} LastDefinitionWins(decls: seq<Variable>, n: nat, j: nat, rnd: RandomString)
    requires j < n <= |decls| && DeclareUpTo(decls, n, rnd).Ok?
    requires forall l :: j < l < n ==> decls[l].name != decls[j].name
    ensures CellFor(decls[j], j, rnd).Some?
    ensures decls[j].name in DeclareUpTo(decls, n, rnd).value
    ensures DeclareUpTo(decls, n, rnd).value[decls[j].name] == CellFor(decls[j], j, rnd).value
  {
    if n - 1 != j {
      LastDefinitionWins(decls, n - 1, j, rnd);
    }
  }

  /** An `always` variable reads as `prefix + fresh draw + postfix` on each
      read, the n-th read seeing draw n. */
  lemma AlwaysDrawsFresh(v: Variable, index: nat, rnd: RandomString, n: nat)
    requires v.random == "always"
    ensures var c := CellFor(v, index, rnd).value;
      Resolve(Generator(c.draw, n)) == v.prefix + rnd(v.randomChars, v.randomLength, index, n) + v.postfix
  {
  }

  /** A `random` kind wins over a static value. */
  lemma RandomBeforeValue(v: Variable, index: nat, rnd: RandomString)
    requires v.random == "once" || v.random == "always"
    ensures CellFor(v, index, rnd) == CellFor(v.(value := ""), index, rnd)
  {
  }
}
