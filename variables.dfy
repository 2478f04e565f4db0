/** The variable store of utils/variables.go: a map from names to cells that
    hold either a fixed string or a generator. */
module Variables {
  import opened Base

  /** A `varValue`. A generator is the stream of strings its closure returns
      on successive calls, together with the number of calls made so far, so
      that every read draws a fresh value. */
  datatype Cell =
    | Fixed(value: string)
    | Generator(draw: nat -> string, calls: nat)

  /** An entry of `LiveSnapshot`: a fixed cell's string, or the generator
      itself, not yet invoked. */
  datatype Live =
    | LiveValue(value: string)
    | LiveGetter(draw: nat -> string, calls: nat)

  /** `getValue`: what one read of the cell returns. */
  function Resolve(c: Cell): string
  {
    match c
    case Fixed(v) => v
    case Generator(draw, n) => draw(n)
  }

  /** The cell after one read: a generator has been called once more. */
  function Advance(c: Cell): (d: Cell)
    ensures d.Fixed? <==> c.Fixed?
    ensures c.Fixed? ==> d == c
    ensures c.Generator? ==> d.draw == c.draw && d.calls == c.calls + 1
  {
    match c
    case Fixed(_) => c
    case Generator(draw, n) => Generator(draw, n + 1)
  }

  /** What `Snapshot` returns for a store. */
  function SnapshotOf(cells: map<string, Cell>): map<string, string>
  {
    map k | k in cells :: Resolve(cells[k])
  }

  /** The store after `Snapshot`: every generator called once. */
  function AdvanceAll(cells: map<string, Cell>): map<string, Cell>
  {
    map k | k in cells :: Advance(cells[k])
  }

  function LiveOfCell(c: Cell): Live
  {
    match c
    case Fixed(v) => LiveValue(v)
    case Generator(draw, n) => LiveGetter(draw, n)
  }

  /** What `LiveSnapshot` returns for a store. */
  function LiveOf(cells: map<string, Cell>): map<string, Live>
  {
    map k | k in cells :: LiveOfCell(cells[k])
  }

  /** `utils.Vars`. Go maps are shared by reference, so every holder of the
      store sees the updates made through any other. */
  class Vars {
    var cells: map<string, Cell>

    constructor()
      ensures cells == map[]
    {
      cells := map[];
    }

    /** `SetOnce`: the cell becomes the fixed value, whatever it held. */
    method SetOnce(key: string, value: string)
      modifies this
      ensures cells == old(cells)[key := Fixed(value)]
    {
      cells := cells[key := Fixed(value)];
    }

    /** `SetGetter`: the cell becomes a generator not yet called. */
    method SetGetter(key: string, draw: nat -> string)
      modifies this
      ensures cells == old(cells)[key := Generator(draw, 0)]
    {
      cells := cells[key := Generator(draw, 0)];
    }

    /** `delete(v, key)`, as the omit step does. */
    method Delete(key: string)
      modifies this
      ensures cells == old(cells) - {key}
    {
      cells := cells - {key};
    }

    /** `Get`: the zero cell of an absent key reads as "". */
    method Get(key: string) returns (value: string, ok: bool)
      modifies this
      ensures ok <==> key in old(cells)
      ensures ok ==> value == Resolve(old(cells)[key]) && cells == old(cells)[key := Advance(old(cells)[key])]
      ensures !ok ==> value == "" && cells == old(cells)
    {
      ok := key in cells;
      if ok {
        var c := cells[key];
        value := Resolve(c);
        cells := cells[key := Advance(c)];
      } else {
        value := "";
      }
    }

    /** `GetOr`: the default exactly when the key is absent. */
    method GetOr(key: string, default: string) returns (value: string)
      modifies this
      ensures key !in old(cells) ==> value == default && cells == old(cells)
      ensures key in old(cells) ==> value == Resolve(old(cells)[key]) && cells == old(cells)[key := Advance(old(cells)[key])]
    {
      var v, ok := Get(key);
      value := if ok then v else default;
    }

    /** `GetOrFail`: an absent key is an error naming it. */
    method GetOrFail(key: string) returns (r: Result<string>)
      modifies this
      ensures key !in old(cells) ==> r == Err(Message("use of undefined variable: " + key)) && cells == old(cells)
      ensures key in old(cells) ==> r == Ok(Resolve(old(cells)[key])) && cells == old(cells)[key := Advance(old(cells)[key])]
    {
      var v, ok := Get(key);
      if ok {
        r := Ok(v);
      } else {
        r := Err(Message("use of undefined variable: " + key));
      }
    }

    /** `Snapshot`: every cell read once, in some order. */
    method Snapshot() returns (snap: map<string, string>)
      modifies this
      ensures snap == SnapshotOf(old(cells))
      ensures cells == AdvanceAll(old(cells))
    {
      snap := map[];
      var todo := cells.Keys;
      while todo != {}
        invariant todo <= old(cells).Keys
        invariant cells.Keys == old(cells).Keys
        invariant snap.Keys == old(cells).Keys - todo
        invariant forall k :: k in snap ==> snap[k] == Resolve(old(cells)[k])
        invariant forall k :: k in cells ==> cells[k] == if k in todo then old(cells)[k] else Advance(old(cells)[k])
        decreases todo
      {
        var k :| k in todo;
        var c := cells[k];
        snap := snap[k := Resolve(c)];
        cells := cells[k := Advance(c)];
        todo := todo - {k};
      }
    }

    /** `LiveSnapshot`: the same keys, no generator called. */
    method LiveSnapshot() returns (snap: map<string, Live>)
      ensures snap == LiveOf(cells)
    {
      snap := map[];
      var todo := cells.Keys;
      while todo != {}
        invariant todo <= cells.Keys
        invariant snap.Keys == cells.Keys - todo
        invariant forall k :: k in snap ==> snap[k] == LiveOfCell(cells[k])
        decreases todo
      {
        var k :| k in todo;
        var c := cells[k];
        if c.Generator? {
          snap := snap[k := LiveGetter(c.draw, c.calls)];
        } else {
          snap := snap[k := LiveValue(c.value)];
        }
        todo := todo - {k};
      }
    }
  }

  // ---------------------------------------------------------------------
  // Properties.

  /** A snapshot has exactly the store's keys; a fixed cell shows its
      value, and reading a snapshot leaves fixed cells as they were, so two
      consecutive snapshots agree on every fixed cell. */
  lemma SnapshotsAgreeOnFixed(cells: map<string, Cell>, k: string)
    requires k in cells && cells[k].Fixed?
    ensures SnapshotOf(cells).Keys == cells.Keys
    ensures SnapshotOf(cells)[k] == cells[k].value
    ensures SnapshotOf(AdvanceAll(cells))[k] == SnapshotOf(cells)[k]
  {
  }

  /** A store of fixed cells is unchanged by a snapshot. */
  lemma FixedStoreIsStable(cells: map<string, Cell>)
    requires forall k :: k in cells ==> cells[k].Fixed?
    ensures AdvanceAll(cells) == cells
  {
    assert forall k :: k in cells ==> AdvanceAll(cells)[k] == cells[k];
  }

  /** A generator cell draws the next value on each snapshot: `n` snapshots
      in a row see `draw(0)`, `draw(1)`, …; two consecutive snapshots can
      therefore differ. */
  lemma GeneratorDrawsInTurn(cells: map<string, Cell>, k: string)
    requires k in cells && cells[k].Generator?
    ensures SnapshotOf(cells)[k] == cells[k].draw(cells[k].calls)
    ensures SnapshotOf(AdvanceAll(cells))[k] == cells[k].draw(cells[k].calls + 1)
  {
  }

  /** Two consecutive snapshots of an `always` variable can differ. */
  lemma TwoSnapshotsCanDiffer()
    ensures var cells := map["token" := Generator((n: nat) => if n == 0 then "a" else "b", 0)];
      SnapshotOf(cells)["token"] != SnapshotOf(AdvanceAll(cells))["token"]
  {
    var cells := map["token" := Generator((n: nat) => if n == 0 then "a" else "b", 0)];
    GeneratorDrawsInTurn(cells, "token");
  }

  /** The live snapshot has the store's keys, fixed cells as their strings
      and generators as themselves, and it does not advance anything. */
  lemma LiveSnapshotShape(cells: map<string, Cell>, k: string)
    requires k in cells
    ensures LiveOf(cells).Keys == cells.Keys
    ensures cells[k].Fixed? ==> LiveOf(cells)[k] == LiveValue(cells[k].value)
    ensures cells[k].Generator? ==> LiveOf(cells)[k] == LiveGetter(cells[k].draw, cells[k].calls)
  {
  }

  /** `SetOnce(k, s)` followed by `Get(k)` gives `(s, true)`; other keys
      keep their cells. */
  method SetOnceThenGet(vars: Vars, key: string, value: string, other: string) returns (v: string, ok: bool)
    requires other != key && other in vars.cells
    modifies vars
    ensures ok && v == value
    ensures other in vars.cells && vars.cells[other] == old(vars.cells[other])
  {
    vars.SetOnce(key, value);
    v, ok := vars.Get(key);
  }
}
