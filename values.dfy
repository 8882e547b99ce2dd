/**
 * Values read from the orchestration scripts' JSON/YAML documents, Python's
 * `str()` on them, and the path strings the scripts build with pathlib.
 */
module Values {

  datatype Option<+T> = None | Some(value: T)

  /**
   * A configuration value as `json.load` or `yaml.safe_load` yields it.
   * Floats, lists and nested mappings appear only through their `str()`
   * rendering, which `Other` carries.
   */
  datatype Value =
    | Str(s: string)
    | Int(i: int)
    | Bool(b: bool)
    | Null
    | Other(rendered: string)

  /** One key/value pair of a loaded mapping. */
  type Entry = (string, Value)

  /** A loaded mapping: its pairs in document order (Python dicts keep insertion order). */
  type Config = seq<Entry>

  /** `value not in [""]` is false exactly for the empty string: 0, False and None are kept. */
  predicate IsBlank(v: Value) {
    v == Str("")
  }

  /** `value is True` is identity with the boolean singleton: the integer 1 is not True. */
  predicate IsTrue(v: Value) {
    v == Bool(true)
  }

  /** A loaded mapping never repeats a key. */
  predicate KeysDistinct(c: Config) {
    forall i, j :: 0 <= i < j < |c| ==> c[i].0 != c[j].0
  }

  /** `d[k]` for a key that is present, `None` otherwise. */
  function Lookup(c: Config, k: string): (r: Option<Value>)
    ensures r.None? <==> forall i :: 0 <= i < |c| ==> c[i].0 != k
    ensures r.Some? ==> exists i :: 0 <= i < |c| && c[i] == (k, r.value)
  {
    if c == [] then None
    else if c[0].0 == k then Some(c[0].1)
    else
      var r := Lookup(c[1..], k);
      assert r.Some? ==> exists i :: 0 <= i < |c[1..]| && c[1..][i] == (k, r.value);
      assert r.Some? ==> exists i :: 1 <= i < |c| && c[i] == (k, r.value);
      r
  }

  // ---------------------------------------------------------------------
  // str() on integers

  function Digit(d: nat): char
    requires d < 10
  {
    ('0' as int + d) as char
  }

  function DigitValue(c: char): nat {
    if '0' <= c <= '9' then c as int - '0' as int else 0
  }

  /** `str(n)` for a non-negative integer: its decimal digits, most significant first. */
  function NatToDecimal(n: nat): (r: string)
    ensures |r| > 0
    ensures forall i :: 0 <= i < |r| ==> '0' <= r[i] <= '9'
    decreases n
  {
    if n < 10 then [Digit(n)] else NatToDecimal(n / 10) + [Digit(n % 10)]
  }

  /** Reads a string of decimal digits back as a number. */
  function DecimalToNat(s: string): nat
    decreases |s|
  {
    if s == [] then 0 else 10 * DecimalToNat(s[..|s| - 1]) + DigitValue(s[|s| - 1])
  }

  /** `str(i)` for any integer: a minus sign before the digits of a negative number. */
  function IntToDecimal(i: int): string {
    if i < 0 then "-" + NatToDecimal(-i) else NatToDecimal(i)
  }

  function DecimalToInt(s: string): int {
    if |s| > 0 && s[0] == '-' then -(DecimalToNat(s[1..]) as int) else DecimalToNat(s)
  }

  /** The decimal rendering of a number reads back as that number. */
  lemma {:induction false} NatDecimalRoundTrip(n: nat)
    ensures DecimalToNat(NatToDecimal(n)) == n
  {
    if n >= 10 {
      NatDecimalRoundTrip(n / 10);
      var s := NatToDecimal(n / 10) + [Digit(n % 10)];
      assert s[..|s| - 1] == NatToDecimal(n / 10);
    }
  }

  /** `str()` of an integer loses nothing: the token handed to a script reads back as the integer. */
  lemma IntDecimalRoundTrip(i: int)
    ensures DecimalToInt(IntToDecimal(i)) == i
  {
    if i < 0 {
      NatDecimalRoundTrip(-i);
      assert IntToDecimal(i)[1..] == NatToDecimal(-i);
    } else {
      NatDecimalRoundTrip(i);
    }
  }

  /** Python's `str(value)`; floats, lists and mappings use their carried rendering. */
  function PyStr(v: Value): (r: string)
    ensures v.Str? ==> r == v.s
    ensures v.Int? ==> DecimalToInt(r) == v.i
    ensures v.Bool? ==> (r == "True" <==> v.b) && (r == "False" <==> !v.b)
    ensures v.Null? ==> r == "None"
  {
    match v
    case Str(s) => s
    case Int(i) => IntDecimalRoundTrip(i); IntToDecimal(i)
    case Bool(b) => if b then "True" else "False"
    case Null => "None"
    case Other(rendered) => rendered
  }

  // ---------------------------------------------------------------------
  // Paths

  /** `str(Path(dir).joinpath(name))`: the parts separated by "/". */
  function Join(dir: string, name: string): string {
    dir + "/" + name
  }

  /** `s.rfind(c)`: the position of the last occurrence of `c`. */
  function LastIndexOf(s: string, c: char): (r: Option<nat>)
    ensures r.None? <==> c !in s
    ensures r.Some? ==> r.value < |s| && s[r.value] == c && c !in s[r.value + 1..]
    decreases |s|
  {
    if s == [] then None
    else if s[|s| - 1] == c then Some(|s| - 1)
    else
      var r := LastIndexOf(s[..|s| - 1], c);
      assert s == s[..|s| - 1] + [s[|s| - 1]];
      assert r.Some? ==> s[r.value + 1..] == s[..|s| - 1][r.value + 1..] + [s[|s| - 1]];
      r
  }

  /** The last occurrence of `c` in `a + [c] + t` is the one between them when `t` has none. */
  lemma {:induction false} LastIndexOfSeparator(a: string, c: char, t: string)
    requires c !in t
    ensures LastIndexOf(a + [c] + t, c) == Some(|a|)
    decreases |t|
  {
    var s := a + [c] + t;
    if t != [] {
      assert s[|s| - 1] == t[|t| - 1];
      assert s[..|s| - 1] == a + [c] + t[..|t| - 1];
      LastIndexOfSeparator(a, c, t[..|t| - 1]);
    }
  }

  /** `Path(p).name`: the part after the last "/". */
  function BaseName(p: string): (r: string)
    ensures '/' !in r
    ensures |r| <= |p| && r == p[|p| - |r|..]
    ensures '/' !in p ==> r == p
  {
    match LastIndexOf(p, '/')
    case None => p
    case Some(i) => p[i + 1..]
  }

  /** The last extension of a final name: from its last dot, unless that dot is first or last. */
  function Extension(name: string): (r: string)
    ensures r == [] || (|r| >= 2 && r[0] == '.' && '.' !in r[1..])
    ensures |r| <= |name| && r == name[|name| - |r|..]
    ensures r != [] ==> |r| < |name|
  {
    match LastIndexOf(name, '.')
    case None => ""
    case Some(i) =>
      if 0 < i < |name| - 1 then
        assert name[i..][1..] == name[i + 1..];
        name[i..]
      else ""
  }

  /** `Path(p).suffix`: the final name's last extension, "" when there is none. */
  function Suffix(p: string): (r: string)
    ensures r == [] || (|r| >= 2 && r[0] == '.' && '.' !in r[1..] && '/' !in r)
    ensures |r| <= |p| && r == p[|p| - |r|..]
  {
    var name := BaseName(p);
    var ext := Extension(name);
    assert name[|name| - |ext|..] == p[|p| - |ext|..];
    ext
  }

  /** Joining a name onto a directory and taking the name back gives the name. */
  lemma BaseNameOfJoin(dir: string, name: string)
    requires '/' !in name
    ensures BaseName(Join(dir, name)) == name
  {
    LastIndexOfSeparator(dir, '/', name);
    assert Join(dir, name) == dir + ['/'] + name;
  }

  /** A final name `stem.ext` with a non-empty stem and a dot-free extension has suffix ".ext". */
  lemma SuffixOfName(p: string, stem: string, ext: string)
    requires stem != [] && ext != [] && '.' !in ext
    requires BaseName(p) == stem + ['.'] + ext
    ensures Suffix(p) == "." + ext
  {
    ExtensionOfName(stem, ext);
  }

  /** The extension of `stem.ext` is ".ext" when the stem is non-empty and the extension dot-free. */
  lemma ExtensionOfName(stem: string, ext: string)
    requires stem != [] && ext != [] && '.' !in ext
    ensures Extension(stem + ['.'] + ext) == "." + ext
  {
    var name := stem + ['.'] + ext;
    LastIndexOfSeparator(stem, '.', ext);
    assert name[|stem|..] == "." + ext;
  }

  /** A file name `stem + "." + ext` with a non-empty stem and a dot-free extension has suffix "." + ext. */
  lemma SuffixOfJoin(dir: string, stem: string, ext: string)
    requires stem != [] && ext != []
    requires '/' !in stem && '/' !in ext && '.' !in ext
    ensures Suffix(Join(dir, stem + "." + ext)) == "." + ext
  {
    var name := stem + ['.'] + ext;
    assert stem + "." + ext == name;
    assert '/' !in name by {
      assert '/' !in ['.'];
    }
    BaseNameOfJoin(dir, name);
    SuffixOfName(Join(dir, name), stem, ext);
  }
}
