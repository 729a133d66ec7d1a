/** Nested transactions on one connection: savepoints give blocks that happen whole or not at all. */
module SqliteDb {

  datatype Exit = Done | Raised | Aborted

  /** What runs inside a transaction: writes, nested blocks, and blocks whose exception the caller
      catches.  Abort is an error by which SQLite itself ends the whole transaction; no repository
      catches it. */
  datatype Stmt<T> = Put(value: T) | Raise | Abort | Block(body: seq<Stmt<T>>) | Try(body: seq<Stmt<T>>)

  /** The meaning of a body on plain values: a block that raises leaves nothing behind. */
  function Eval<T>(s: T, stmts: seq<Stmt<T>>): (T, Exit)
    decreases stmts
  {
    if stmts == [] then (s, Done) else
      match stmts[0]
      case Put(v) => Eval(v, stmts[1..])
      case Raise => (s, Raised)
      case Abort => (s, Aborted)
      case Block(body) =>
        var r := Eval(s, body);
        if r.1 == Done then Eval(r.0, stmts[1..]) else (s, r.1)
      case Try(body) =>
        var r := Eval(s, body);
        if r.1 == Aborted then (s, Aborted) else Eval(if r.1 == Done then r.0 else s, stmts[1..])
  }

  /** The outermost block; its commit can fail. */
  function Outermost<T>(s: T, body: seq<Stmt<T>>, commits: bool): (T, Exit) {
    var r := Eval(s, body);
    if r.1 == Done && commits then r else (s, if r.1 == Done then Raised else r.1)
  }

  class MiniImSqliteDb<T> {
    /** What a crash leaves, what this connection sees, and the value saved by each open savepoint. */
    var durable: T
    var working: T
    var saves: seq<T>

    ghost predicate Valid()
      reads this
    {
      saves == [] ==> working == durable
    }

    constructor (initial: T)
      ensures Valid() && durable == initial && working == initial && saves == []
    {
      durable, working, saves := initial, initial, [];
    }

    method Savepoint()
      modifies this`saves
      ensures saves == old(saves) + [old(working)]
    {
      saves := saves + [working];
    }

    /** RELEASE: the outermost one commits, which may fail. */
    method Release(commits: bool) returns (ok: bool)
      requires saves != []
      modifies this`durable, this`saves
      ensures ok <==> |old(saves)| > 1 || commits
      ensures saves == if ok then old(saves)[..|old(saves)| - 1] else old(saves)
      ensures durable == if ok && |old(saves)| == 1 then working else old(durable)
    {
      if |saves| > 1 {
        saves := saves[..|saves| - 1];
        return true;
      }
      if !commits { return false; }
      durable, saves := working, [];
      return true;
    }

    /** The exception handler of transaction(). */
    method Unwind(outermost: bool)
      requires saves != [] ==> (outermost <==> |saves| == 1)
      modifies this`working, this`saves
      ensures old(saves) == [] ==> working == old(working) && saves == []
      ensures |old(saves)| == 1 ==> working == durable && saves == []
      ensures |old(saves)| > 1 ==> working == old(saves)[|old(saves)| - 1] && saves == old(saves)[..|old(saves)| - 1]
    {
      if saves == [] { return; }
      if outermost {
        working, saves := durable, [];
      } else {
        working := saves[|saves| - 1];
        saves := saves[..|saves| - 1];
      }
    }

    /** Runs a body inside an open transaction: the visible value is the body's meaning, the savepoints
        of the caller are untouched, and nothing becomes durable. */
    method RunBody(stmts: seq<Stmt<T>>) returns (exit: Exit)
      requires saves != []
      modifies this
      ensures exit == Eval(old(working), stmts).1 && durable == old(durable)
      ensures exit != Aborted ==> working == Eval(old(working), stmts).0 && saves == old(saves)
      ensures exit == Aborted ==> working == durable && saves == []
      decreases stmts, 0
    {
      exit := Done;
      if stmts == [] { return; }
      match stmts[0]
      case Put(v) =>
        working := v;
        exit := RunBody(stmts[1..]);
      case Raise => exit := Raised;
      case Abort =>
        working, saves := durable, [];
        exit := Aborted;
      case Block(body) =>
        exit := Nested(body);
        if exit == Done { exit := RunBody(stmts[1..]); }
      case Try(body) =>
        exit := Nested(body);
        if exit != Aborted { exit := RunBody(stmts[1..]); }
    }

    /** A block inside an open transaction leaves its caller's value alone unless it completes. */
    method Nested(body: seq<Stmt<T>>) returns (exit: Exit)
      requires saves != []
      modifies this
      ensures exit == Eval(old(working), body).1 && durable == old(durable)
      ensures exit == Done ==> working == Eval(old(working), body).0 && saves == old(saves)
      ensures exit == Raised ==> working == old(working) && saves == old(saves)
      ensures exit == Aborted ==> working == durable && saves == []
      decreases body, 1
    {
      Savepoint();
      exit := RunBody(body);
      if exit == Done {
        var ok := Release(false);
      } else {
        Unwind(false);
      }
    }

    /** The outermost block is atomic: afterwards the durable value is the body's whole effect or
        exactly what it was, and at no moment in between was it anything else. */
    method Transaction(body: seq<Stmt<T>>, commits: bool) returns (exit: Exit)
      requires Valid() && saves == []
      modifies this
      ensures Valid() && saves == []
      ensures (durable, exit) == Outermost(old(durable), body, commits)
    {
      Savepoint();
      exit := RunBody(body);
      if exit == Done {
        var ok := Release(commits);
        if !ok {
          exit := Raised;
          Unwind(true);
        }
      } else {
        Unwind(true);
      }
    }
  }

  // ---------- what the meaning promises ----------

  /** A block that raises is as if it had never run. */
  lemma RaisedBlockVanishes<T>(s: T, body: seq<Stmt<T>>, rest: seq<Stmt<T>>)
    requires Eval(s, body).1 == Raised
    ensures Eval(s, [Try(body)] + rest) == Eval(s, rest)
  {
    assert ([Try(body)] + rest)[1..] == rest;
  }

  /** Nesting a completed block inside its caller changes nothing. */
  lemma CompletedBlockInlines<T>(s: T, body: seq<Stmt<T>>, rest: seq<Stmt<T>>)
    requires Eval(s, body).1 == Done
    ensures Eval(s, [Block(body)] + rest) == Eval(s, body + rest)
  {
    assert ([Block(body)] + rest)[1..] == rest;
    Sequential(s, body, rest);
  }

  lemma {:induction false} Sequential<T>(s: T, a: seq<Stmt<T>>, b: seq<Stmt<T>>)
    requires Eval(s, a).1 == Done
    ensures Eval(s, a + b) == Eval(Eval(s, a).0, b)
    decreases a
  {
    if a == [] {
      assert a + b == b;
    } else {
      assert (a + b)[0] == a[0] && (a + b)[1..] == a[1..] + b;
      match a[0]
      case Put(v) => Sequential(v, a[1..], b);
      case Block(body) => Sequential(Eval(s, body).0, a[1..], b);
      case Try(body) => Sequential(if Eval(s, body).1 == Done then Eval(s, body).0 else s, a[1..], b);
      case _ =>
    }
  }
}
