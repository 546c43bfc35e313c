/**
 * The realtime key-value store the chat uses, seen as a map from paths
 * (`users/{uid}/online` is `["users", uid, "online"]`) to JSON-like values.
 * The store itself is external; only the effect of `setValue` and
 * `removeValue` on that map is modelled.
 */
module RealtimeDatabase {
  import opened Wrappers

  type Path = seq<string>

  datatype Value =
    | BoolValue(b: bool)
    | LongValue(n: int)
    | StringValue(s: string)
    | Node(children: map<string, Value>)

  /** One child of a `DataSnapshot`: its key (null only for the root) and
      what `getValue(T::class.java)` produced for it (null when it could not
      be read as a `T`). */
  datatype Child<T> = Child(key: Option<string>, value: Option<T>)

  /** Outcome of an asynchronous store write, reported by the store. */
  datatype WriteResult = Succeeded | Failed(message: string)

  class Database {
    var data: map<Path, Value>

    constructor ()
      ensures data == map[]
    {
      data := map[];
    }

    /** `ref.setValue(v)` once the store has accepted it. */
    method SetValue(path: Path, v: Value)
      modifies this
      ensures data == old(data)[path := v]
    {
      data := data[path := v];
    }

    /** `ref.removeValue()` once the store has accepted it; removing an
        absent path is not an error. */
    method RemoveValue(path: Path)
      modifies this
      ensures data == old(data) - {path}
    {
      data := data - {path};
    }
  }
}

/**
 * `snapshot.children.mapNotNull { it.getValue(T::class.java) }`: the
 * readable children's values, in snapshot order.
 */
module SnapshotValues {
  import opened Wrappers
  import opened RealtimeDatabase

  function Values<T>(children: seq<Child<T>>): (r: seq<T>)
    ensures |r| <= |children|
  {
    if children == [] then []
    else
      var rest := Values(children[1..]);
      match children[0].value
      case Some(v) => [v] + rest
      case None => rest
  }

  /** Reading distributes over concatenation, so snapshot order is kept. */
  lemma {:induction false} ValuesAppend<T>(a: seq<Child<T>>, b: seq<Child<T>>)
    ensures Values(a + b) == Values(a) + Values(b)
  {
    if a == [] {
      assert a + b == b;
    } else {
      assert (a + b)[0] == a[0] && (a + b)[1..] == a[1..] + b;
      ValuesAppend(a[1..], b);
    }
  }

  /** A value survives exactly when some child read as it. */
  lemma {:induction false} ValuesMembership<T>(children: seq<Child<T>>, x: T)
    ensures x in Values(children) <==> exists i :: 0 <= i < |children| && children[i].value == Some(x)
  {
    if children != [] {
      ValuesMembership(children[1..], x);
      if x in Values(children[1..]) {
        var i :| 0 <= i < |children[1..]| && children[1..][i].value == Some(x);
        assert children[i + 1].value == Some(x);
      }
      if exists i :: 0 <= i < |children| && children[i].value == Some(x) {
        var i :| 0 <= i < |children| && children[i].value == Some(x);
        if i > 0 {
          assert children[1..][i - 1].value == Some(x);
        }
      }
    }
  }
}
