/**
 * Latest room CSV: `get_latest_csv_file` (script.py). The directory listing is
 * an input; among the names that start with `uoft_study_rooms` and end with
 * `.csv`, the source sorts and takes the last one, which is the greatest name
 * in Python's string order (lexicographic by code point, a proper prefix first).
 */
module CsvFiles {
  import opened Wrappers

  const RoomCsvPrefix: string := "uoft_study_rooms"
  const CsvSuffix: string := ".csv"

  /** `f.startswith('uoft_study_rooms') and f.endswith('.csv')` */
  predicate IsRoomCsv(f: string)
  {
    && |RoomCsvPrefix| <= |f| && f[..|RoomCsvPrefix|] == RoomCsvPrefix
    && |CsvSuffix| <= |f| && f[|f| - |CsvSuffix|..] == CsvSuffix
  }

  /** Python's `a <= b` on strings. */
  predicate LexLe(a: string, b: string)
  {
    if a == [] then true
    else if b == [] then false
    else if a[0] != b[0] then a[0] < b[0]
    else LexLe(a[1..], b[1..])
  }

  lemma {:induction false} LexLeTotal(a: string, b: string)
    ensures LexLe(a, b) || LexLe(b, a)
  {
    if a != [] && b != [] && a[0] == b[0] {
      LexLeTotal(a[1..], b[1..]);
    }
  }

  lemma {:induction false} LexLeAntisymmetric(a: string, b: string)
    requires LexLe(a, b) && LexLe(b, a)
    ensures a == b
  {
    if a != [] && b != [] {
      LexLeAntisymmetric(a[1..], b[1..]);
      assert a == [a[0]] + a[1..] && b == [b[0]] + b[1..];
    }
  }

  lemma {:induction false} LexLeTransitive(a: string, b: string, c: string)
    requires LexLe(a, b) && LexLe(b, c)
    ensures LexLe(a, c)
  {
    if a != [] && b != [] && c != [] && a[0] == b[0] && b[0] == c[0] {
      LexLeTransitive(a[1..], b[1..], c[1..]);
    }
  }

  /** The list comprehension: the room CSV names, in listing order. */
  function RoomCsvFiles(names: seq<string>): (r: seq<string>)
    ensures forall f :: f in r <==> f in names && IsRoomCsv(f)
  {
    if names == [] then []
    else
      var last := names[|names| - 1];
      RoomCsvFiles(names[..|names| - 1]) + (if IsRoomCsv(last) then [last] else [])
  }

  /** The last element after `sort()`: the greatest name. */
  function Greatest(names: seq<string>): (m: string)
    requires names != []
    ensures m in names
    ensures forall f :: f in names ==> LexLe(f, m)
  {
    if |names| == 1 then
      LexLeTotal(names[0], names[0]);
      names[0]
    else
      var init := names[..|names| - 1];
      var last := names[|names| - 1];
      assert names == init + [last];
      var m := Greatest(init);
      LexLeTotal(m, last);
      if LexLe(m, last) then
        LexLeTotal(last, last);
        assert forall f :: f in init ==> LexLe(f, last) by {
          forall f | f in init
            ensures LexLe(f, last)
          {
            LexLeTransitive(f, m, last);
          }
        }
        last
      else
        m
  }

  /**
   * `get_latest_csv_file`: `None` exactly when no name is a room CSV; otherwise a room CSV of
   * the listing that no other room CSV of the listing exceeds.
   */
  function LatestCsvFile(names: seq<string>): (r: Option<string>)
    ensures r.None? <==> forall f :: f in names ==> !IsRoomCsv(f)
    ensures r.Some? ==> r.value in names && IsRoomCsv(r.value)
    ensures r.Some? ==> forall f :: f in names && IsRoomCsv(f) ==> LexLe(f, r.value)
  {
    var files := RoomCsvFiles(names);
    if files == [] then
      None
    else
      Some(Greatest(files))
  }

  /** The answer does not depend on the listing order: it is the only room CSV that bounds all others. */
  lemma LatestIsUnique(names: seq<string>, x: string)
    requires x in names && IsRoomCsv(x)
    requires forall f :: f in names && IsRoomCsv(f) ==> LexLe(f, x)
    ensures LatestCsvFile(names) == Some(x)
  {
    var r := LatestCsvFile(names);
    assert r.Some?;
    LexLeAntisymmetric(r.value, x);
  }

  /** Two names that agree on their first `k` characters compare as their next character does. */
  lemma {:induction false} LexLeCommonPrefix(a: string, b: string, k: nat)
    requires k < |a| && k < |b| && a[..k] == b[..k] && a[k] < b[k]
    ensures LexLe(a, b)
  {
    if k > 0 {
      assert a[0] == a[..k][0] == b[..k][0] == b[0];
      assert a[1..][..k - 1] == a[1..k] == a[..k][1..];
      assert b[1..][..k - 1] == b[1..k] == b[..k][1..];
      LexLeCommonPrefix(a[1..], b[1..], k - 1);
    }
  }
}
