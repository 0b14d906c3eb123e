/** Slash-delimited paths into the statistics tree: Python's `str.split` and
    `str.replace` on one character, and the resolver `get_value`. */
module Paths {
  import opened Results
  import opened Json

  /** Python's `s.split(sep)`: the pieces between separators, always at least
      one (`"".split("/") == [""]`). */
  function Split(s: string, sep: char): (parts: seq<string>)
    ensures |parts| >= 1
  {
    if s == [] then [""]
    else
      var rest := Split(s[1..], sep);
      if s[0] == sep then [""] + rest else [[s[0]] + rest[0]] + rest[1..]
  }

  /** Python's `sep.join(parts)`. */
  function Join(parts: seq<string>, sep: char): string
    requires |parts| >= 1
  {
    if |parts| == 1 then parts[0] else parts[0] + [sep] + Join(parts[1..], sep)
  }

  /** Python's `s.replace(from, to)` for one-character arguments. */
  function Replace(s: string, from: char, to: char): (r: string)
    ensures |r| == |s|
    ensures forall i :: 0 <= i < |s| ==> r[i] == if s[i] == from then to else s[i]
  {
    if s == [] then [] else [if s[0] == from then to else s[0]] + Replace(s[1..], from, to)
  }

  /** Splitting and joining again gives back the string, and no piece
      contains the separator. */
  lemma {:induction false} JoinSplit(s: string, sep: char)
    ensures Join(Split(s, sep), sep) == s
    ensures forall i :: 0 <= i < |Split(s, sep)| ==> sep !in Split(s, sep)[i]
  {
    if s != [] {
      JoinSplit(s[1..], sep);
      var rest := Split(s[1..], sep);
      if s[0] != sep {
        if |rest| == 1 {
          assert Split(s, sep) == [[s[0]] + rest[0]];
        } else {
          assert Split(s, sep)[1..] == rest[1..];
        }
      }
    }
  }

  /** A separator in the middle splits into the pieces of either side. */
  lemma {:induction false} SplitAppend(a: string, sep: char, b: string)
    ensures Split(a + [sep] + b, sep) == Split(a, sep) + Split(b, sep)
  {
    if a == [] {
      assert a + [sep] + b == [sep] + b;
      assert ([sep] + b)[1..] == b;
    } else {
      assert (a + [sep] + b)[1..] == a[1..] + [sep] + b;
      SplitAppend(a[1..], sep, b);
    }
  }

  /** A string without the separator is a single piece. */
  lemma {:induction false} SplitNoSeparator(s: string, sep: char)
    requires sep !in s
    ensures Split(s, sep) == [s]
  {
    if s != [] {
      assert s[0] != sep && sep !in s[1..];
      SplitNoSeparator(s[1..], sep);
      assert [s[0]] + s[1..] == s;
    }
  }

  /** Replacing a character is splitting on it and joining with the other. */
  lemma {:induction false} ReplaceIsJoinSplit(s: string, from: char, to: char)
    ensures Replace(s, from, to) == Join(Split(s, from), to)
  {
    if s != [] {
      ReplaceIsJoinSplit(s[1..], from, to);
      var rest := Split(s[1..], from);
      if s[0] == from {
        assert Split(s, from) == [""] + rest;
        assert ([""] + rest)[1..] == rest;
      } else if |rest| > 1 {
        assert Split(s, from)[1..] == rest[1..];
      }
    }
  }

  /** The keys `get_value` indexes with: the pieces of `path.split('/')`
      after the first. */
  function PathKeys(path: string): seq<string> {
    Split(path, '/')[1..]
  }

  /** Indexing key by key from `node`, stopping at the first key that fails. */
  function ResolveKeys(node: Json, keys: seq<string>): Result<Json> {
    if keys == [] then Ok(node)
    else
      var parent :- ResolveKeys(node, keys[..|keys| - 1]);
      Index(parent, keys[|keys| - 1])
  }

  /** What `get_value(tree, path)` returns or raises. */
  function ResolvePath(tree: Json, path: string): Result<Json> {
    ResolveKeys(tree, PathKeys(path))
  }

  /** Resolving a concatenation of keys is resolving the first part and then
      the second part from where the first one led. */
  lemma {:induction false} ResolveAppend(node: Json, a: seq<string>, b: seq<string>)
    ensures ResolveKeys(node, a + b) ==
            match ResolveKeys(node, a)
            case Err(e) => Err(e)
            case Ok(mid) => ResolveKeys(mid, b)
  {
    if b != [] {
      assert (a + b)[..|a + b| - 1] == a + b[..|b| - 1];
      ResolveAppend(node, a, b[..|b| - 1]);
    } else {
      assert a + b == a;
    }
  }

  /** A path is resolved to the tree itself exactly when `split('/')` yields
      a single piece, that is when the path holds no slash (`""` among them). */
  lemma NoSlashPath(tree: Json, path: string)
    ensures PathKeys(path) == [] <==> '/' !in path
    ensures '/' !in path ==> ResolvePath(tree, path) == Ok(tree)
  {
    if '/' in path {
      var i :| 0 <= i < |path| && path[i] == '/';
      assert path == path[..i] + ['/'] + path[i + 1..];
      SplitAppend(path[..i], '/', path[i + 1..]);
    } else {
      SplitNoSeparator(path, '/');
    }
  }

  /** Resolution composes: a path followed by a path that starts with a
      slash resolves like the second path from the node the first one
      reaches. */
  lemma ResolvePathCompose(tree: Json, p: string, q: string)
    requires |q| > 0 && q[0] == '/'
    ensures ResolvePath(tree, p + q) ==
            match ResolvePath(tree, p)
            case Err(e) => Err(e)
            case Ok(mid) => ResolvePath(mid, q)
  {
    assert p + q == p + ['/'] + q[1..];
    assert q == [] + ['/'] + q[1..];
    SplitAppend(p, '/', q[1..]);
    SplitAppend([], '/', q[1..]);
    assert PathKeys(q) == Split(q[1..], '/');
    assert PathKeys(p + q) == PathKeys(p) + PathKeys(q);
    ResolveAppend(tree, PathKeys(p), PathKeys(q));
  }

  /** If the keys before position `i` lead to a node that cannot be indexed
      with key `i` (missing key or not a mapping), the whole resolution fails
      with that error. */
  lemma ResolveFailsAt(node: Json, keys: seq<string>, i: nat, mid: Json)
    requires i < |keys|
    requires ResolveKeys(node, keys[..i]) == Ok(mid)
    requires Index(mid, keys[i]).Err?
    ensures ResolveKeys(node, keys) == Err(Index(mid, keys[i]).error)
  {
    assert keys == keys[..i + 1] + keys[i + 1..];
    assert keys[..i + 1][..i] == keys[..i];
    ResolveAppend(node, keys[..i + 1], keys[i + 1..]);
  }

  /** Conversely, a failed resolution has a cause: some key `i` that the node
      reached by the keys before it cannot be indexed with. */
  lemma {:induction false} ResolveErrorCause(node: Json, keys: seq<string>)
    requires ResolveKeys(node, keys).Err?
    ensures exists i :: 0 <= i < |keys| && ResolveKeys(node, keys[..i]).Ok? &&
                        Index(ResolveKeys(node, keys[..i]).value, keys[i]) == ResolveKeys(node, keys)
  {
    var init := keys[..|keys| - 1];
    if ResolveKeys(node, init).Err? {
      ResolveErrorCause(node, init);
      var i :| 0 <= i < |init| && ResolveKeys(node, init[..i]).Ok? &&
               Index(ResolveKeys(node, init[..i]).value, init[i]) == ResolveKeys(node, init);
      assert init[..i] == keys[..i];
    } else {
      assert keys[..|keys| - 1] == init;
    }
  }

  /** `get_value`: rebinds the current node once per key of the path. */
  method GetValue(amps: Json, path: string) returns (r: Result<Json>)
    ensures r == ResolvePath(amps, path)
  {
    var keys := Split(path, '/')[1..];
    var current := amps;
    for i := 0 to |keys|
      invariant ResolveKeys(amps, keys[..i]) == Ok(current)
    {
      var next := Index(current, keys[i]);
      if next.Err? {
        ResolveFailsAt(amps, keys, i, current);
        return Err(next.error);
      }
      assert keys[..i + 1][..i] == keys[..i];
      current := next.value;
    }
    assert keys[..|keys|] == keys;
    return Ok(current);
  }
}
