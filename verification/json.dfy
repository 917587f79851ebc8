/** JSON values as the Python side holds them (dicts, lists, strings, ...) and
    the two dict operations the query builder uses: a chained subscript read
    `j[k0][k1]...[kn]` and a chained subscript assignment
    `j[k0][k1]...[kn] = v`. */
module JsonValues {

  datatype Option<+T> = None | Some(value: T)

  /** A JSON-compatible Python value: `dict` is `Obj`, `list` is `Arr`. */
  datatype Json =
    | Null
    | Bool(b: bool)
    | Num(n: int)
    | Str(s: string)
    | Arr(items: seq<Json>)
    | Obj(fields: map<string, Json>)

  /** The keys of a chain of subscripts, outermost first. */
  type Path = seq<string>

  /** Chained subscript read. `None` stands for the exception Python raises:
      a missing key (KeyError) or subscripting something that is not a dict. */
  function Get(j: Json, path: Path): Option<Json>
    decreases |path|
  {
    if path == [] then Some(j)
    else if j.Obj? && path[0] in j.fields then Get(j.fields[path[0]], path[1..])
    else None
  }

  /** The key set of the dict found at `path`, if there is one. */
  function KeysAt(j: Json, path: Path): Option<set<string>>
  {
    match Get(j, path)
    case Some(Obj(fields)) => Some(fields.Keys)
    case _ => None
  }

  /** The dict `f` with its entry for `k` replaced by the outcome `o` of an
      assignment made further down. */
  function UnderKey(f: map<string, Json>, k: string, o: Option<Json>): Option<Json>
  {
    match o
    case None => None
    case Some(child) => Some(Obj(f[k := child]))
  }

  /** Chained subscript assignment: every key but the last is read (and must
      lead to a dict), the last is inserted or overwritten in place. `None` is
      the exception Python raises on the way. */
  function Put(j: Json, path: Path, v: Json): Option<Json>
    requires path != []
    decreases |path|
  {
    if !j.Obj? then None
    else if |path| == 1 then Some(Obj(j.fields[path[0] := v]))
    else if path[0] !in j.fields then None
    else UnderKey(j.fields, path[0], Put(j.fields[path[0]], path[1..], v))
  }

  /** A successful assignment keeps the outer value a dict and adds at most
      the first key of the path to its keys. */
  lemma PutKeys(j: Json, path: Path, v: Json)
    requires path != [] && Put(j, path, v).Some?
    ensures j.Obj? && Put(j, path, v).value.Obj?
    ensures Put(j, path, v).value.fields.Keys == j.fields.Keys + {path[0]}
  {
  }

  /** A second assignment, made only if the first one did not raise. */
  function AndPut(o: Option<Json>, path: Path, v: Json): Option<Json>
    requires path != []
  {
    match o
    case None => None
    case Some(j) => Put(j, path, v)
  }

  /** Two paths that differ at some position both of them have, so that
      neither one reaches into the other. */
  predicate Diverge(p: Path, q: Path)
    decreases |p|
  {
    p != [] && q != [] && (p[0] != q[0] || Diverge(p[1..], q[1..]))
  }

  lemma {:induction false} DivergeSymmetric(p: Path, q: Path)
    requires Diverge(p, q)
    ensures Diverge(q, p)
    decreases |p|
  {
    if p[0] == q[0] {
      DivergeSymmetric(p[1..], q[1..]);
    }
  }

  /** Reading `p + q` is reading `p`, then `q` from what was found. */
  lemma {:induction false} GetAppend(j: Json, p: Path, q: Path)
    ensures Get(j, p + q) == match Get(j, p) case None => None case Some(x) => Get(x, q)
    decreases |p|
  {
    if p == [] {
      assert p + q == q;
    } else {
      assert (p + q)[1..] == p[1..] + q;
      if j.Obj? && p[0] in j.fields {
        GetAppend(j.fields[p[0]], p[1..], q);
      }
    }
  }

  /** One step of an assignment below the first key. */
  lemma PutCons(f: map<string, Json>, k: string, rest: Path, v: Json)
    requires rest != []
    ensures Put(Obj(f), [k] + rest, v) == if k in f then UnderKey(f, k, Put(f[k], rest, v)) else None
  {
    assert ([k] + rest)[1..] == rest;
  }

  /** The assignment succeeds exactly when the path without its last key
      leads to a dict. */
  lemma {:induction false} PutDefinedIff(j: Json, path: Path, v: Json)
    requires path != []
    ensures Put(j, path, v).Some? <==> KeysAt(j, path[..|path| - 1]).Some?
    decreases |path|
  {
    if j.Obj? && |path| > 1 && path[0] in j.fields {
      PutDefinedIff(j.fields[path[0]], path[1..], v);
      assert path[1..][..|path| - 2] == path[..|path| - 1][1..];
    }
  }

  /** Reading back the assigned path yields the assigned value. */
  lemma {:induction false} PutThenGet(j: Json, path: Path, v: Json)
    requires path != [] && Put(j, path, v).Some?
    ensures Get(Put(j, path, v).value, path) == Some(v)
    decreases |path|
  {
    if |path| > 1 {
      PutThenGet(j.fields[path[0]], path[1..], v);
    }
  }

  /** The assignment changes nothing reached by a path that diverges from
      the assigned one. */
  lemma {:induction false} PutFrame(j: Json, path: Path, v: Json, q: Path)
    requires path != [] && Put(j, path, v).Some?
    requires Diverge(path, q)
    ensures Get(Put(j, path, v).value, q) == Get(j, q)
    decreases |path|
  {
    if path[0] == q[0] {
      PutFrame(j.fields[path[0]], path[1..], v, q[1..]);
    }
  }

  /** What the last-but-one dict's entry for `path[0]` becomes. */
  function PutChild(fields: map<string, Json>, path: Path, v: Json): Option<Json>
    requires path != []
  {
    if |path| == 1 then Some(v)
    else if path[0] in fields then Put(fields[path[0]], path[1..], v)
    else None
  }

  /** A second assignment under the same key goes down into the same child. */
  lemma AndPutUnderKey(f: map<string, Json>, k: string, o: Option<Json>, q: Path, w: Json)
    requires |q| > 1 && q[0] == k
    ensures AndPut(UnderKey(f, k, o), q, w) == UnderKey(f, k, AndPut(o, q[1..], w))
  {
    if o.Some? {
      assert f[k := o.value][k] == o.value;
      match Put(o.value, q[1..], w)
      case None =>
      case Some(x) =>
        assert f[k := o.value][k := x] == f[k := x];
    }
  }

  /** Two assignments at diverging paths can be made in either order: both
      orders raise, or both give the same value. */
  lemma {:induction false} PutCommutes(j: Json, p: Path, v: Json, q: Path, w: Json)
    requires Diverge(p, q)
    ensures AndPut(Put(j, p, v), q, w) == AndPut(Put(j, q, w), p, v)
    decreases |p|
  {
    if j.Obj? {
      var f := j.fields;
      var a, b := PutChild(f, p, v), PutChild(f, q, w);
      if p[0] != q[0] {
        if a.Some? {
          assert Put(j, p, v) == Some(Obj(f[p[0] := a.value]));
          assert PutChild(f[p[0] := a.value], q, w) == b;
        }
        if b.Some? {
          assert Put(j, q, w) == Some(Obj(f[q[0] := b.value]));
          assert PutChild(f[q[0] := b.value], p, v) == a;
        }
        if a.Some? && b.Some? {
          assert f[p[0] := a.value][q[0] := b.value] == f[q[0] := b.value][p[0] := a.value];
        }
      } else if p[0] in f {
        var k := p[0];
        PutCommutes(f[k], p[1..], v, q[1..], w);
        AndPutUnderKey(f, k, Put(f[k], p[1..], v), q, w);
        AndPutUnderKey(f, k, Put(f[k], q[1..], w), p, v);
      }
    }
  }
}
