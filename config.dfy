/**
 * The static category configuration of the logger and the string keys
 * built from it (src/App.js:6-12, 88, 94, 125, 173-177).
 */
module Config {
  import opened Wrappers

  /** Category name and its ordered condition labels, in declaration order. */
  const CATEGORIES: seq<(string, seq<string>)> := [
    ("Weather", ["Sunny", "Low Sun", "Cloudy", "Rain", "Fog", "Snow"]),
    ("Road Type", ["City", "Country", "Highway", "Construction Site", "Tunnel"]),
    ("Lighting", ["Day", "Dawn", "Lit Night", "Dark Night"]),
    ("Traffic", ["Flow", "Jam"]),
    ("Speed", ["0-2 mph", "3-18 mph", "19-37 mph", "38-55 mph", "56-80 mph", "81-155 mph"])
  ]

  const SEPARATOR: char := '-'

  /** The key of a (category, condition) pair: `category-condition`. */
  function Key(category: string, condition: string): string
  {
    category + [SEPARATOR] + condition
  }

  /** The conditions of the first entry named `name`, or None (the source's `undefined`). */
  function Find(cats: seq<(string, seq<string>)>, name: string): (r: Option<seq<string>>)
    ensures r.Some? <==> exists i :: 0 <= i < |cats| && cats[i].0 == name
    ensures r.Some? ==> exists i :: 0 <= i < |cats| && cats[i] == (name, r.value)
  {
    if cats == [] then None
    else if cats[0].0 == name then Some(cats[0].1)
    else
      var r := Find(cats[1..], name);
      assert forall i :: 0 < i < |cats| ==> cats[i] == cats[1..][i - 1];
      assert forall i :: 0 <= i < |cats| - 1 ==> cats[1..][i] == cats[i + 1];
      r
  }

  /** `categories[category]`: the configured conditions of a category. */
  function Lookup(category: string): Option<seq<string>>
  {
    Find(CATEGORIES, category)
  }

  predicate IsCategory(category: string)
  {
    Lookup(category).Some?
  }

  ghost predicate DistinctNames(cats: seq<(string, seq<string>)>)
  {
    forall i, j :: 0 <= i < j < |cats| ==> cats[i].0 != cats[j].0
  }

  ghost predicate Distinct(s: seq<string>)
  {
    forall i, j :: 0 <= i < j < |s| ==> s[i] != s[j]
  }

  /** In a list with distinct names, looking up the name of entry `i` gives entry `i`. */
  lemma {:induction false} FindAt(cats: seq<(string, seq<string>)>, i: nat)
    requires DistinctNames(cats) && i < |cats|
    ensures Find(cats, cats[i].0) == Some(cats[i].1)
  {
    if i > 0 {
      assert cats[0].0 != cats[i].0;
      assert cats[1..][i - 1] == cats[i];
      assert DistinctNames(cats[1..]) by {
        forall a, b | 0 <= a < b < |cats| - 1 ensures cats[1..][a].0 != cats[1..][b].0 {
          assert cats[1..][a] == cats[a + 1] && cats[1..][b] == cats[b + 1];
        }
      }
      FindAt(cats[1..], i - 1);
    }
  }

  /** The configuration is well formed: names are distinct, dash-free, and conditions are distinct. */
  lemma ConfigWellFormed()
    ensures DistinctNames(CATEGORIES)
    ensures forall i :: 0 <= i < |CATEGORIES| ==> SEPARATOR !in CATEGORIES[i].0
    ensures forall i :: 0 <= i < |CATEGORIES| ==> Distinct(CATEGORIES[i].1)
  {
  }

  /** Looking up a configured category yields its own condition list. */
  lemma LookupAt(i: nat)
    requires i < |CATEGORIES|
    ensures Lookup(CATEGORIES[i].0) == Some(CATEGORIES[i].1)
  {
    ConfigWellFormed();
    FindAt(CATEGORIES, i);
  }

  /** A known category is one of the configured entries, so it contains no separator. */
  lemma LookupSome(category: string) returns (i: nat)
    requires IsCategory(category)
    ensures i < |CATEGORIES| && CATEGORIES[i] == (category, Lookup(category).value)
    ensures SEPARATOR !in category
    ensures Distinct(Lookup(category).value)
  {
    ConfigWellFormed();
    i :| 0 <= i < |CATEGORIES| && CATEGORIES[i] == (category, Lookup(category).value);
  }

  /** `s.indexOf(c)`: the first position of `c` in `s`, or -1. */
  function IndexOf(s: string, c: char): (r: int)
    ensures -1 <= r < |s|
    ensures r >= 0 ==> s[r] == c && c !in s[..r]
    ensures r == -1 <==> c !in s
  {
    if s == [] then -1
    else if s[0] == c then 0
    else
      var r := IndexOf(s[1..], c);
      if r == -1 then -1
      else
        assert s[..r + 1] == [s[0]] + s[1..][..r];
        r + 1
  }

  /**
   * The export's split of a key at its first separator: `key.slice(0, i)`
   * and `key.slice(i + 1)`. With no separator, `slice(0, -1)` drops the last
   * character and `slice(0)` keeps the whole key.
   */
  function SplitKey(key: string): (string, string)
  {
    var i := IndexOf(key, SEPARATOR);
    if i == -1 then (if key == [] then [] else key[..|key| - 1], key)
    else (key[..i], key[i + 1..])
  }

  /** Splitting a key built from a separator-free category recovers both parts. */
  lemma {:induction false} SplitKeyOfKey(category: string, condition: string)
    requires SEPARATOR !in category
    ensures SplitKey(Key(category, condition)) == (category, condition)
  {
    var k := Key(category, condition);
    IndexOfPrefix(category, condition);
    assert k[..|category|] == category;
    assert k[|category| + 1..] == condition;
  }

  lemma {:induction false} IndexOfPrefix(category: string, condition: string)
    requires SEPARATOR !in category
    ensures IndexOf(Key(category, condition), SEPARATOR) == |category|
  {
    if category != [] {
      assert Key(category, condition)[1..] == Key(category[1..], condition);
      IndexOfPrefix(category[1..], condition);
    }
  }

  /** Keys of separator-free categories identify their pair. */
  lemma KeyInjective(c1: string, d1: string, c2: string, d2: string)
    requires SEPARATOR !in c1 && SEPARATOR !in c2
    requires Key(c1, d1) == Key(c2, d2)
    ensures c1 == c2 && d1 == d2
  {
    SplitKeyOfKey(c1, d1);
    SplitKeyOfKey(c2, d2);
  }

  /** Within one category, different conditions give different keys. */
  lemma SameCategoryKeys(c: string, d1: string, d2: string)
    requires Key(c, d1) == Key(c, d2)
    ensures d1 == d2
  {
    assert d1 == Key(c, d1)[|c| + 1..];
    assert d2 == Key(c, d2)[|c| + 1..];
  }

  /** Speed conditions contain the separator, yet their keys still split correctly. */
  lemma SpeedKeySplits()
    ensures SEPARATOR in "0-2 mph"
    ensures SplitKey(Key("Speed", "0-2 mph")) == ("Speed", "0-2 mph")
  {
    assert "0-2 mph"[1] == SEPARATOR;
    SplitKeyOfKey("Speed", "0-2 mph");
  }
}
