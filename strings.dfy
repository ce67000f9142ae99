/**
 * The dotted-path lookup into the app's table of display strings.  The
 * table itself (`strings.data`) is not part of this model: the lookup takes
 * the tree as a parameter.
 */
module Strings {
  import opened Wrappers
  import opened JsString

  /** A node of the strings table: a display string, or an object keyed by name. */
  datatype StringTree = Text(value: string) | Group(entries: map<string, StringTree>)

  /**
   * The node reached from `node` by looking up each key in turn; `None` as
   * soon as a key is missing or is looked up in a string rather than an object.
   */
  function Walk(node: StringTree, keys: seq<string>): (r: Option<StringTree>)
    ensures keys == [] ==> r == Some(node)
    ensures keys != [] && node.Text? ==> r.None?
    ensures keys != [] && node.Group? && keys[0] !in node.entries ==> r.None?
  {
    if keys == [] then Some(node)
    else
      match node
      case Text(_) => None
      case Group(entries) =>
        if keys[0] in entries then Walk(entries[keys[0]], keys[1..]) else None
  }

  /** Walking a concatenation of keys is walking the first part, then the second from where it ended. */
  lemma {:induction false} WalkAppend(node: StringTree, a: seq<string>, b: seq<string>)
    ensures Walk(node, a + b) == match Walk(node, a) case None => None case Some(n) => Walk(n, b)
    decreases a
  {
    if a != [] {
      assert (a + b)[0] == a[0] && (a + b)[1..] == a[1..] + b;
      if node.Group? && a[0] in node.entries {
        WalkAppend(node.entries[a[0]], a[1..], b);
      }
    } else {
      assert a + b == b;
    }
  }

  /** What `getString(path)` returns: the string leaf the dot-separated keys reach, or else the path itself. */
  function StringAt(data: StringTree, path: string): (r: string)
    ensures r != path ==> Walk(data, Split(path, '.')) == Some(Text(r))
  {
    match Walk(data, Split(path, '.'))
    case Some(Text(s)) => s
    case _ => path
  }

  /** `getString`: splits the path at the dots and descends one key per step, returning the path on the first miss. */
  method GetString(data: StringTree, path: string) returns (r: string)
    ensures r == StringAt(data, path)
  {
    var keys := Split(path, '.');
    var result := data;
    for i := 0 to |keys|
      invariant Walk(data, keys) == Walk(result, keys[i..])
    {
      assert keys[i..][0] == keys[i] && keys[i..][1..] == keys[i + 1..];
      if result.Group? && keys[i] in result.entries {
        result := result.entries[keys[i]];
      } else {
        return path;
      }
    }
    r := if result.Text? then result.value else path;
  }

  /** A missing key, a key looked up in a string, or a path that ends on an object all give the path back. */
  lemma MissOrObjectGivesPath(data: StringTree, path: string)
    ensures Walk(data, Split(path, '.')).None? ==> StringAt(data, path) == path
    ensures Walk(data, Split(path, '.')).Some? && Walk(data, Split(path, '.')).value.Group? ==>
      StringAt(data, path) == path
  {
  }

  /** Any key sequence without dots that reaches a string names that string by the keys joined with dots. */
  lemma LeafByJoinedKeys(data: StringTree, keys: seq<string>, s: string)
    requires |keys| >= 1
    requires forall k :: 0 <= k < |keys| ==> '.' !in keys[k]
    requires Walk(data, keys) == Some(Text(s))
    ensures StringAt(data, Join(keys, '.')) == s
  {
    SplitJoin(keys, '.');
  }

  /** Once a prefix of the keys reaches a string, no longer path can reach anything. */
  lemma PrefixAtLeafGivesPath(data: StringTree, path: string, j: nat)
    requires j < |Split(path, '.')|
    requires Walk(data, Split(path, '.')[..j]).Some? && Walk(data, Split(path, '.')[..j]).value.Text?
    ensures StringAt(data, path) == path
  {
    var keys := Split(path, '.');
    assert keys == keys[..j] + keys[j..];
    WalkAppend(data, keys[..j], keys[j..]);
  }

  /** The loop runs at most once per segment, one more than the number of dots. */
  lemma StepsBound(path: string)
    ensures |Split(path, '.')| == multiset(path)['.'] + 1
  {
    SplitCount(path, '.');
  }
}
