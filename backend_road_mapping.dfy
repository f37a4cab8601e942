/**
 * The road-condition table of the prediction service (backend/app.py:52,
 * 111-114, 204): the encoder's class names, lowercased, each mapped to its
 * position; a case-insensitive lookup; and the sorted key listing served to
 * the page. The table is a Python dict, so it keeps its keys in insertion
 * order; it is modelled as a sequence of entries with distinct keys.
 */
module RoadMapping {
  import opened Wrappers

  /** `str.lower()` on one character (ASCII letters only). */
  function LowerChar(c: char): char
  {
    if 'A' <= c <= 'Z' then (c as int + 32) as char else c
  }

  /** `str.lower()`. */
  function Lower(s: string): (r: string)
    ensures |r| == |s|
  {
    if s == [] then [] else [LowerChar(s[0])] + Lower(s[1..])
  }

  /** Lowercasing twice is lowercasing once, so a key of the table is found
      by its own spelling and by every spelling in another case. */
  lemma {:induction false} LowerIdempotent(s: string)
    ensures Lower(Lower(s)) == Lower(s)
  {
    if s != [] {
      LowerIdempotent(s[1..]);
      assert Lower(s)[1..] == Lower(s[1..]);
    }
  }

  datatype Entry = Entry(key: string, index: nat)

  /** The dict, in insertion order. */
  type Table = seq<Entry>

  function Keys(t: Table): (ks: seq<string>)
    ensures |ks| == |t|
    ensures forall i :: 0 <= i < |t| ==> ks[i] == t[i].key
  {
    if t == [] then [] else [t[0].key] + Keys(t[1..])
  }

  ghost predicate DistinctKeys(t: Table)
  {
    forall i, j :: 0 <= i < j < |t| ==> t[i].key != t[j].key
  }

  /** `d[k] = v`: overwrite in place if present, else append. */
  function Put(t: Table, k: string, v: nat): (u: Table)
  {
    if t == [] then [Entry(k, v)]
    else if t[0].key == k then [Entry(k, v)] + t[1..]
    else [t[0]] + Put(t[1..], k, v)
  }

  lemma {:induction false} PutSpec(t: Table, k: string, v: nat)
    requires DistinctKeys(t)
    ensures DistinctKeys(Put(t, k, v))
    ensures Entry(k, v) in Put(t, k, v)
    ensures forall e :: e in Put(t, k, v) <==> e == Entry(k, v) || (e in t && e.key != k)
  {
    if t != [] && t[0].key != k {
      PutSpec(t[1..], k, v);
      var u := Put(t, k, v);
      assert u == [t[0]] + Put(t[1..], k, v);
      forall i, j | 0 <= i < j < |u| ensures u[i].key != u[j].key {
        if i == 0 {
          assert u[j] in Put(t[1..], k, v);
          assert u[j].key == k || u[j] in t[1..];
        }
      }
      forall e ensures e in u <==> e == Entry(k, v) || (e in t && e.key != k) {
        assert e in t <==> e == t[0] || e in t[1..];
      }
    } else if t != [] {
      var u := Put(t, k, v);
      forall i, j | 0 <= i < j < |u| ensures u[i].key != u[j].key {
        assert u[j] == t[j];
        if i > 0 { assert u[i] == t[i]; }
      }
      forall e ensures e in u <==> e == Entry(k, v) || (e in t && e.key != k) {
        assert e in t <==> e == t[0] || e in t[1..];
        assert forall e' :: e' in t[1..] ==> e'.key != k;
      }
    }
  }

  /** `{str(cond).lower(): idx for idx, cond in enumerate(classes)}`. */
  function Build(classes: seq<string>): Table
  {
    if classes == [] then []
    else Put(Build(classes[..|classes| - 1]), Lower(classes[|classes| - 1]), |classes| - 1)
  }

  /** The table has one entry per distinct lowercased class name; each entry
      holds the position of the LAST class that lowercases to its key. */
  lemma BuildSpec(classes: seq<string>)
    ensures DistinctKeys(Build(classes))
    ensures forall i :: 0 <= i < |classes| ==> Lower(classes[i]) in Keys(Build(classes))
    ensures forall e :: e in Build(classes) ==> LastOccurrence(classes, e)
  {
    BuildInvariant(classes);
    var t := Build(classes);
    forall i | 0 <= i < |classes| ensures Lower(classes[i]) in Keys(t) {
      var e :| e in t && e.key == Lower(classes[i]);
      KeyListed(t, e);
    }
  }

  lemma KeyListed(t: Table, e: Entry)
    requires e in t
    ensures e.key in Keys(t)
  {
    var q :| 0 <= q < |t| && t[q] == e;
    assert Keys(t)[q] == e.key;
  }

  /** `e.index` is the last position whose class lowercases to `e.key`. */
  ghost predicate LastOccurrence(classes: seq<string>, e: Entry)
  {
    && e.index < |classes|
    && Lower(classes[e.index]) == e.key
    && forall j :: e.index < j < |classes| ==> Lower(classes[j]) != e.key
  }

  lemma {:induction false} BuildInvariant(classes: seq<string>)
    ensures DistinctKeys(Build(classes))
    ensures forall i :: 0 <= i < |classes| ==> exists e :: e in Build(classes) && e.key == Lower(classes[i])
    ensures forall e :: e in Build(classes) ==> LastOccurrence(classes, e)
  {
    if classes != [] {
      var n := |classes| - 1;
      var prefix := classes[..n];
      var k := Lower(classes[n]);
      BuildInvariant(prefix);
      PutSpec(Build(prefix), k, n);
      var t := Build(classes);
      assert t == Put(Build(prefix), k, n);
      forall i | 0 <= i < |classes| ensures exists e :: e in t && e.key == Lower(classes[i]) {
        if i == n {
          assert Entry(k, n) in t;
        } else {
          assert prefix[i] == classes[i];
          var e :| e in Build(prefix) && e.key == Lower(classes[i]);
          if e.key != k {
            assert e in t;
          } else {
            assert Entry(k, n) in t;
          }
        }
      }
      forall e | e in t ensures LastOccurrence(classes, e) {
        if e != Entry(k, n) {
          PrefixOccurrence(classes, e);
        }
      }
    }
  }

  lemma PrefixOccurrence(classes: seq<string>, e: Entry)
    requires classes != []
    requires LastOccurrence(classes[..|classes| - 1], e)
    requires e.key != Lower(classes[|classes| - 1])
    ensures LastOccurrence(classes, e)
  {
    var prefix := classes[..|classes| - 1];
    assert prefix[e.index] == classes[e.index];
    forall j | e.index < j < |classes| - 1 ensures Lower(classes[j]) != e.key {
      assert prefix[j] == classes[j];
    }
  }

  /** `d.get(k)`. */
  function Get(t: Table, k: string): (r: Option<nat>)
    ensures r.Some? ==> Entry(k, r.value) in t
    ensures r.None? ==> k !in Keys(t)
  {
    if t == [] then None
    else if t[0].key == k then Some(t[0].index)
    else Get(t[1..], k)
  }

  /** `repr` of a string, in the single-quoted form Python uses for text
      without quotes or backslashes. */
  function Repr(s: string): string
  {
    "'" + s + "'"
  }

  /** `repr(list)` of a list of strings. */
  function ListRepr(ks: seq<string>): string
  {
    "[" + JoinReprs(ks) + "]"
  }

  function JoinReprs(ks: seq<string>): string
  {
    if ks == [] then ""
    else if |ks| == 1 then Repr(ks[0])
    else Repr(ks[0]) + ", " + JoinReprs(ks[1..])
  }

  /** The ValueError that `predict_lifespan` raises for an unknown condition. */
  function InvalidConditionMessage(t: Table): string
  {
    "Invalid road condition. Valid options: " + ListRepr(Keys(t))
  }

  /** `road_mapping.get(condition.lower())`, raising for an unknown value. */
  function Encode(t: Table, condition: string): (r: Result<nat>)
    ensures r.Err? <==> Lower(condition) !in Keys(t)
    ensures r.Ok? ==> Entry(Lower(condition), r.value) in t
    ensures r.Err? ==> r.error == InvalidConditionMessage(t)
  {
    match Get(t, Lower(condition))
    case Some(idx) => Ok(idx)
    case None => Err(InvalidConditionMessage(t))
  }

  /** Against the table built from the encoder's classes, a condition is
      accepted iff it equals some class name up to ASCII case, and is encoded
      as the last class that does. */
  lemma EncodeBuiltTable(classes: seq<string>, condition: string)
    ensures Encode(Build(classes), condition).Ok? <==>
      exists i :: 0 <= i < |classes| && Lower(classes[i]) == Lower(condition)
    ensures Encode(Build(classes), condition).Ok? ==>
      LastOccurrence(classes, Entry(Lower(condition), Encode(Build(classes), condition).value))
  {
    BuildSpec(classes);
    var t := Build(classes);
    if exists i :: 0 <= i < |classes| && Lower(classes[i]) == Lower(condition) {
      var i :| 0 <= i < |classes| && Lower(classes[i]) == Lower(condition);
      assert Lower(condition) in Keys(t);
    }
  }

  /** Case-insensitivity: spellings that agree up to case are encoded alike,
      and a class name in any case is accepted. */
  lemma EncodeIgnoresCase(t: Table, a: string, b: string)
    requires Lower(a) == Lower(b)
    ensures Encode(t, a) == Encode(t, b)
  {
  }

  /** Every key of the built table is found by its own spelling, and by any
      spelling that agrees with it up to case, at that key's own position. */
  lemma BuiltKeyFound(classes: seq<string>, e: Entry, spelling: string)
    requires e in Build(classes)
    requires Lower(spelling) == e.key || spelling == e.key
    ensures Encode(Build(classes), spelling) == Ok(e.index)
  {
    var t := Build(classes);
    BuildSpec(classes);
    LowerIdempotent(classes[e.index]);
    var r := Encode(t, spelling);
    KeyListed(t, e);
    var p :| 0 <= p < |t| && t[p] == e;
    var q :| 0 <= q < |t| && t[q] == Entry(Lower(spelling), r.value);
    assert p == q;
  }

  lemma {:induction false} ClassNameAccepted(classes: seq<string>, i: nat, spelling: string)
    requires i < |classes|
    requires Lower(spelling) == Lower(classes[i])
    ensures Encode(Build(classes), spelling).Ok?
  {
    EncodeBuiltTable(classes, spelling);
  }

  // ---- sorted(road_mapping.keys()) ----

  /** Python's `<=` on str: code-point lexicographic order. */
  predicate LexLeq(a: string, b: string)
  {
    a == [] || (b != [] && (a[0] < b[0] || (a[0] == b[0] && LexLeq(a[1..], b[1..]))))
  }

  lemma {:induction false} LexTotal(a: string, b: string)
    ensures LexLeq(a, b) || LexLeq(b, a)
  {
    if a != [] && b != [] && a[0] == b[0] {
      LexTotal(a[1..], b[1..]);
    }
  }

  lemma {:induction false} LexAntisymmetric(a: string, b: string)
    requires LexLeq(a, b) && LexLeq(b, a)
    ensures a == b
  {
    if a != [] && b != [] {
      LexAntisymmetric(a[1..], b[1..]);
      assert a == [a[0]] + a[1..];
      assert b == [b[0]] + b[1..];
    }
  }

  lemma {:induction false} LexTransitive(a: string, b: string, c: string)
    requires LexLeq(a, b) && LexLeq(b, c)
    ensures LexLeq(a, c)
  {
    if a != [] && b != [] && c != [] && a[0] == b[0] == c[0] {
      LexTransitive(a[1..], b[1..], c[1..]);
    }
  }

  ghost predicate Sorted(s: seq<string>)
  {
    forall i :: 0 < i < |s| ==> LexLeq(s[i - 1], s[i])
  }

  function Insert(x: string, s: seq<string>): seq<string>
  {
    if s == [] || LexLeq(x, s[0]) then [x] + s else [s[0]] + Insert(x, s[1..])
  }

  lemma {:induction false} InsertSpec(x: string, s: seq<string>)
    requires Sorted(s)
    ensures Sorted(Insert(x, s))
    ensures multiset(Insert(x, s)) == multiset(s) + multiset{x}
    ensures Insert(x, s) != [] && (Insert(x, s)[0] == x || (s != [] && Insert(x, s)[0] == s[0]))
  {
    if s != [] && !LexLeq(x, s[0]) {
      LexTotal(x, s[0]);
      InsertSpec(x, s[1..]);
      var r := Insert(x, s[1..]);
      assert Insert(x, s) == [s[0]] + r;
      assert s == [s[0]] + s[1..];
      forall i | 0 < i < |[s[0]] + r| ensures LexLeq(([s[0]] + r)[i - 1], ([s[0]] + r)[i]) {
        if i == 1 {
          if r[0] != x { assert r[0] == s[1]; }
        } else {
          assert ([s[0]] + r)[i - 1] == r[i - 2];
          assert ([s[0]] + r)[i] == r[i - 1];
        }
      }
    }
  }

  /** Insertion sort: Python's `sorted` on a list of str. */
  function Sort(s: seq<string>): seq<string>
  {
    if s == [] then [] else Insert(s[0], Sort(s[1..]))
  }

  lemma {:induction false} SortSpec(s: seq<string>)
    ensures Sorted(Sort(s))
    ensures multiset(Sort(s)) == multiset(s)
  {
    if s != [] {
      SortSpec(s[1..]);
      InsertSpec(s[0], Sort(s[1..]));
      assert s == [s[0]] + s[1..];
    }
  }

  /** `get_road_conditions`: the table's keys in sorted order. */
  function SortedKeys(t: Table): (ks: seq<string>)
    ensures Sorted(ks)
    ensures multiset(ks) == multiset(Keys(t))
  {
    SortSpec(Keys(t));
    Sort(Keys(t))
  }

  /** The first element of a sorted list is its least. */
  lemma {:induction false} HeadLeast(s: seq<string>, i: nat)
    requires Sorted(s) && i < |s|
    ensures LexLeq(s[0], s[i])
  {
    if i == 0 {
      LexTotal(s[0], s[0]);
    } else {
      HeadLeast(s, i - 1);
      LexTransitive(s[0], s[i - 1], s[i]);
    }
  }

  lemma SortedTail(s: seq<string>)
    requires Sorted(s) && s != []
    ensures Sorted(s[1..])
  {
    forall k | 0 < k < |s[1..]| ensures LexLeq(s[1..][k - 1], s[1..][k]) {
      assert s[1..][k - 1] == s[k] && s[1..][k] == s[k + 1];
    }
  }

  /** Two sorted permutations of one non-empty list start alike. */
  lemma SortedHeadsAgree(a: seq<string>, b: seq<string>)
    requires Sorted(a) && Sorted(b) && multiset(a) == multiset(b) && a != []
    ensures b != [] && a[0] == b[0]
  {
    assert a[0] in multiset(b);
    var i :| 0 <= i < |b| && b[i] == a[0];
    assert b[0] in multiset(a);
    var j :| 0 <= j < |a| && a[j] == b[0];
    HeadLeast(b, i);
    HeadLeast(a, j);
    LexAntisymmetric(a[0], b[0]);
  }

  /** A list of str has one sorted permutation, so `SortedKeys` is exactly
      what `sorted()` returns. */
  lemma {:induction false} SortedPermutationUnique(a: seq<string>, b: seq<string>)
    requires Sorted(a) && Sorted(b) && multiset(a) == multiset(b)
    ensures a == b
  {
    if a == [] {
      assert |b| == |multiset(b)| == 0;
    } else {
      SortedHeadsAgree(a, b);
      assert a == [a[0]] + a[1..];
      assert b == [b[0]] + b[1..];
      assert multiset(a[1..]) == multiset(a) - multiset{a[0]};
      assert multiset(b[1..]) == multiset(b) - multiset{b[0]};
      SortedTail(a);
      SortedTail(b);
      SortedPermutationUnique(a[1..], b[1..]);
    }
  }

  lemma SortedKeysUnique(t: Table, ks: seq<string>)
    requires Sorted(ks) && multiset(ks) == multiset(Keys(t))
    ensures ks == SortedKeys(t)
  {
    SortedPermutationUnique(ks, SortedKeys(t));
  }

  /** The listing holds exactly the keys, each once, strictly ascending. */
  lemma SortedKeysListing(t: Table)
    requires DistinctKeys(t)
    ensures |SortedKeys(t)| == |t|
    ensures forall k :: k in SortedKeys(t) <==> k in Keys(t)
    ensures forall i :: 0 < i < |SortedKeys(t)| ==> SortedKeys(t)[i - 1] != SortedKeys(t)[i]
  {
    var ks := SortedKeys(t);
    assert |ks| == |multiset(ks)| == |multiset(Keys(t))| == |Keys(t)|;
    forall k ensures k in ks <==> k in Keys(t) {
      assert k in ks <==> k in multiset(ks);
      assert k in Keys(t) <==> k in multiset(Keys(t));
    }
    forall i | 0 < i < |ks| ensures ks[i - 1] != ks[i] {
      KeysOnce(t, ks[i]);
      NoAdjacentDuplicate(ks, i);
    }
  }

  lemma NoAdjacentDuplicate(ks: seq<string>, i: nat)
    requires 0 < i < |ks|
    requires multiset(ks)[ks[i]] <= 1
    ensures ks[i - 1] != ks[i]
  {
    var x, k := ks[i - 1], ks[i];
    assert ks == ks[..i - 1] + [x, k] + ks[i + 1..];
    assert multiset(ks) == multiset(ks[..i - 1]) + multiset([x, k]) + multiset(ks[i + 1..]);
    assert multiset([x, k])[k] <= 1;
  }

  lemma {:induction false} KeysOnce(t: Table, k: string)
    requires DistinctKeys(t)
    ensures multiset(Keys(t))[k] <= 1
  {
    if t != [] {
      assert DistinctKeys(t[1..]) by {
        forall i, j | 0 <= i < j < |t[1..]| ensures t[1..][i].key != t[1..][j].key {
          assert t[1..][i] == t[i + 1] && t[1..][j] == t[j + 1];
        }
      }
      KeysOnce(t[1..], k);
      assert Keys(t) == [t[0].key] + Keys(t[1..]);
      if t[0].key == k {
        assert k !in Keys(t[1..]) by {
          forall i | 0 <= i < |t[1..]| ensures Keys(t[1..])[i] != k {
            assert t[1..][i] == t[i + 1];
          }
        }
      }
    }
  }
}
