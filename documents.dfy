/**
 * The config translator: dropping unset keys from a loaded JSON/YAML mapping
 * before it is written as the training script's TOML file or turned into
 * command-line flags, and the key-sorting utility for JSON documents.
 */
module Documents {
  import opened Values

  /**
   * The dict comprehension `{key: d[key] for key in d if d[key] not in [""]}`:
   * every entry whose value is not the empty string, in document order.
   */
  function Clean(c: Config): (r: Config)
    ensures |r| <= |c|
    ensures forall e :: e in r <==> e in c && !IsBlank(e.1)
  {
    if c == [] then []
    else if IsBlank(c[0].1) then Clean(c[1..])
    else [c[0]] + Clean(c[1..])
  }

  /** Cleaning works entry by entry: it keeps the relative order of what it keeps. */
  lemma {:induction false} CleanAppend(a: Config, b: Config)
    ensures Clean(a + b) == Clean(a) + Clean(b)
  {
    if a == [] {
      assert a + b == b;
    } else {
      assert (a + b)[1..] == a[1..] + b;
      CleanAppend(a[1..], b);
    }
  }

  /** A mapping with no empty-string values is left exactly as it is. */
  lemma {:induction false} CleanKeepsUnblank(c: Config)
    requires forall i :: 0 <= i < |c| ==> !IsBlank(c[i].1)
    ensures Clean(c) == c
  {
    if c != [] {
      CleanKeepsUnblank(c[1..]);
    }
  }

  /** Cleaning a cleaned mapping changes nothing. */
  lemma CleanIdempotent(c: Config)
    ensures Clean(Clean(c)) == Clean(c)
  {
    var r := Clean(c);
    forall i | 0 <= i < |r| ensures !IsBlank(r[i].1) {
      assert r[i] in r;
    }
    CleanKeepsUnblank(r);
  }

  /** Cleaning keeps a mapping's keys distinct. */
  lemma {:induction false} CleanKeepsKeysDistinct(c: Config)
    requires KeysDistinct(c)
    ensures KeysDistinct(Clean(c))
  {
    if c != [] {
      CleanKeepsKeysDistinct(c[1..]);
      if !IsBlank(c[0].1) {
        var r := Clean(c[1..]);
        forall j | 0 <= j < |r| ensures r[j].0 != c[0].0 {
          assert r[j] in c[1..];
        }
      }
    }
  }

  /**
   * Read as a dictionary, the cleaned mapping is the loaded one with the
   * empty-string keys missing and every other key's value unchanged.
   */
  lemma {:induction false} CleanLookup(c: Config, k: string)
    requires KeysDistinct(c)
    ensures Lookup(Clean(c), k) == if Lookup(c, k) == Some(Str("")) then None else Lookup(c, k)
  {
    if c != [] {
      assert KeysDistinct(c[1..]);
      CleanLookup(c[1..], k);
      if c[0].0 == k {
        assert Lookup(c[1..], k) == None;
        if IsBlank(c[0].1) {
          var r := Clean(c[1..]);
          forall i | 0 <= i < |r| ensures r[i].0 != k {
            assert r[i] in c[1..];
          }
        }
      }
    }
  }

  // ---------------------------------------------------------------------
  // sort_json

  /** Python's `<` on strings: code point by code point, a proper prefix first. */
  predicate KeyLess(a: string, b: string)
    ensures KeyLess(a, b) ==> a != b
    decreases |a|
  {
    if a == [] then b != []
    else if b == [] then false
    else if a[0] == b[0] then KeyLess(a[1..], b[1..])
    else a[0] < b[0]
  }

  /** Two different strings are always ordered one way or the other. */
  lemma {:induction false} KeyLessTotal(a: string, b: string)
    requires a != b
    ensures KeyLess(a, b) || KeyLess(b, a)
    decreases |a|
  {
    if a != [] && b != [] && a[0] == b[0] {
      assert a == [a[0]] + a[1..] && b == [b[0]] + b[1..];
      KeyLessTotal(a[1..], b[1..]);
    }
  }

  /** No two strings are each less than the other. */
  lemma {:induction false} KeyLessAsymmetric(a: string, b: string)
    ensures !(KeyLess(a, b) && KeyLess(b, a))
    decreases |a|
  {
    if a != [] && b != [] && a[0] == b[0] {
      KeyLessAsymmetric(a[1..], b[1..]);
    }
  }

  /** Python's `<` on strings is transitive. */
  lemma {:induction false} KeyLessTransitive(a: string, b: string, c: string)
    requires KeyLess(a, b) && KeyLess(b, c)
    ensures KeyLess(a, c)
    decreases |a|
  {
    if a != [] && a[0] == b[0] && b[0] == c[0] {
      KeyLessTransitive(a[1..], b[1..], c[1..]);
    }
  }

  /** Keys in strictly ascending order, neighbour by neighbour. */
  predicate SortedByKey(c: Config) {
    forall i :: 0 <= i < |c| - 1 ==> KeyLess(c[i].0, c[i + 1].0)
  }

  /** Neighbour order is order between any two entries: each key is less than every later key. */
  lemma {:induction false} SortedByKeyAll(c: Config, i: nat, j: nat)
    requires SortedByKey(c) && i < j < |c|
    ensures KeyLess(c[i].0, c[j].0)
    decreases j - i
  {
    if i + 1 < j {
      SortedByKeyAll(c, i + 1, j);
      KeyLessTransitive(c[i].0, c[i + 1].0, c[j].0);
    }
  }

  /** Places an entry before the first entry whose key is larger. */
  function InsertByKey(e: Entry, s: Config): (r: Config)
    ensures multiset(r) == multiset(s) + multiset{e}
    ensures |r| == |s| + 1
    ensures r[0] == e || (s != [] && r[0] == s[0])
  {
    if s == [] then [e]
    else if KeyLess(e.0, s[0].0) then [e] + s
    else
      assert s == [s[0]] + s[1..];
      [s[0]] + InsertByKey(e, s[1..])
  }

  lemma {:induction false} InsertByKeySorted(e: Entry, s: Config)
    requires SortedByKey(s)
    requires forall i :: 0 <= i < |s| ==> s[i].0 != e.0
    ensures SortedByKey(InsertByKey(e, s))
  {
    if s != [] && !KeyLess(e.0, s[0].0) {
      KeyLessTotal(e.0, s[0].0);
      InsertByKeySorted(e, s[1..]);
    }
  }

  /** The entries of `sorted(d)` with their values: the same entries, keys ascending. */
  function SortByKey(c: Config): (r: Config)
    ensures multiset(r) == multiset(c)
    ensures |r| == |c|
  {
    if c == [] then []
    else
      assert c == [c[0]] + c[1..];
      InsertByKey(c[0], SortByKey(c[1..]))
  }

  /** With distinct keys, the sort leaves the keys strictly ascending. */
  lemma {:induction false} SortByKeySorted(c: Config)
    requires KeysDistinct(c)
    ensures SortedByKey(SortByKey(c))
  {
    if c != [] {
      assert KeysDistinct(c[1..]);
      SortByKeySorted(c[1..]);
      var s := SortByKey(c[1..]);
      forall i | 0 <= i < |s| ensures s[i].0 != c[0].0 {
        assert s[i] in multiset(c[1..]);
      }
      InsertByKeySorted(c[0], s);
    }
  }

  /** What `sort_json` writes and returns. */
  datatype JsonWrite = JsonWrite(path: string, contents: Config, message: string)

  /**
   * `sort_json(json_path, output_name)`: writes the loaded mapping with its keys
   * in ascending order to `<output_name>.json` and returns the message naming it.
   */
  function SortJson(doc: Config, outputName: string): (w: JsonWrite)
    requires KeysDistinct(doc)
    ensures w.path == outputName + ".json"
    ensures multiset(w.contents) == multiset(doc)
    ensures SortedByKey(w.contents)
    ensures forall i, j :: 0 <= i < j < |w.contents| ==> KeyLess(w.contents[i].0, w.contents[j].0)
    ensures w.message == "Saved file as " + w.path
  {
    SortByKeySorted(doc);
    forall i, j | 0 <= i < j < |SortByKey(doc)|
      ensures KeyLess(SortByKey(doc)[i].0, SortByKey(doc)[j].0)
    {
      SortedByKeyAll(SortByKey(doc), i, j);
    }
    JsonWrite(outputName + ".json", SortByKey(doc), "Saved file as " + outputName + ".json")
  }
}
