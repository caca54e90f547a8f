/**
 * The ordering step of `display_media`: `sorted(media_list, key=..., reverse=True)`
 * on "Likes", "Comments Count" or "Taken At".  Python's sort is stable also
 * when reversed, so the result is the list in descending order of the key with
 * records of equal key in their original order.  Keys are compared with `<`:
 * ints and bools as numbers, strings by code point, and a list whose keys mix
 * numbers and strings, or holds a None, list or dict, raises TypeError as soon
 * as it has two records to compare.
 */
module MediaSort {
  import opened PyValue
  import opened Profile

  /** The three choices of the select box. */
  datatype SortBy = Likes | Comments | Date

  /** A sort key as `<` sees it. */
  datatype Key = Num(n: int) | Text(t: string) | Unordered

  /** What `<` compares a key value as: an int or a bool as a number, a str as text, anything else not at all. */
  function KeyOf(v: Json): (k: Key)
    ensures k.Num? <==> v.Int? || v.Bool?
    ensures k.Text? <==> v.Str?
    ensures v.Int? ==> k.n == v.i
    ensures v.Bool? ==> k.n == (if v.b then 1 else 0)
    ensures v.Str? ==> k.t == v.s
  {
    match v
    case Int(i) => Num(i)
    case Bool(b) => Num(if b then 1 else 0)
    case Str(s) => Text(s)
    case _ => Unordered
  }

  /** `x.get('Likes', 0)` and the like: the record always has the key, so the default is never used. */
  function Rank(m: Media, order: SortBy): (k: Key)
    ensures order == Likes ==> k == KeyOf(m.likes)
    ensures order == Comments ==> k == KeyOf(m.commentsCount)
    ensures order == Date ==> k == KeyOf(m.takenAt)
  {
    KeyOf(match order
          case Likes => m.likes
          case Comments => m.commentsCount
          case Date => m.takenAt)
  }

  /** Python's string order: code point by code point, a proper prefix first. */
  predicate TextLe(a: string, b: string)
  {
    a == [] || (b != [] && (a[0] < b[0] || (a[0] == b[0] && TextLe(a[1..], b[1..]))))
  }

  /**
   * `a <= b` on keys of one kind.  Across kinds the order is arbitrary but
   * fixed (it is never consulted by a sort that does not raise), which makes
   * it a total order.
   */
  predicate KeyLe(a: Key, b: Key)
  {
    match (a, b)
    case (Unordered, _) => true
    case (Num(x), Num(y)) => x <= y
    case (Num(_), Text(_)) => true
    case (Text(x), Text(y)) => TextLe(x, y)
    case _ => false
  }

  lemma {:induction false} TextLeTotal(a: string, b: string)
    ensures TextLe(a, b) || TextLe(b, a)
  {
    if a != [] && b != [] && a[0] == b[0] {
      TextLeTotal(a[1..], b[1..]);
    }
  }

  lemma {:induction false} TextLeTrans(a: string, b: string, c: string)
    requires TextLe(a, b) && TextLe(b, c)
    ensures TextLe(a, c)
  {
    if a != [] && a[0] == b[0] && b[0] == c[0] {
      TextLeTrans(a[1..], b[1..], c[1..]);
    }
  }

  lemma {:induction false} TextLeAntisym(a: string, b: string)
    requires TextLe(a, b) && TextLe(b, a)
    ensures a == b
  {
    if a != [] {
      TextLeAntisym(a[1..], b[1..]);
      assert a == [a[0]] + a[1..] && b == [b[0]] + b[1..];
    }
  }

  lemma {:induction false} TextLeRefl(a: string)
    ensures TextLe(a, a)
  {
    if a != [] {
      TextLeRefl(a[1..]);
    }
  }

  lemma KeyLeRefl(a: Key)
    ensures KeyLe(a, a)
  {
    if a.Text? {
      TextLeRefl(a.t);
    }
  }

  lemma KeyLeTotal(a: Key, b: Key)
    ensures KeyLe(a, b) || KeyLe(b, a)
  {
    if a.Text? && b.Text? {
      TextLeTotal(a.t, b.t);
    }
  }

  lemma KeyLeTrans(a: Key, b: Key, c: Key)
    requires KeyLe(a, b) && KeyLe(b, c)
    ensures KeyLe(a, c)
  {
    if a.Text? && b.Text? && c.Text? {
      TextLeTrans(a.t, b.t, c.t);
    }
  }

  lemma KeyLeAntisym(a: Key, b: Key)
    requires KeyLe(a, b) && KeyLe(b, a)
    ensures a == b
  {
    if a.Text? && b.Text? {
      TextLeAntisym(a.t, b.t);
    }
  }

  // ---- the sort ----

  /** Descending: no record has a smaller key than one after it. */
  ghost predicate Desc(r: seq<Media>, order: SortBy)
  {
    forall i, j :: 0 <= i < j < |r| ==> KeyLe(Rank(r[j], order), Rank(r[i], order))
  }

  /** The records of key `k`, in the order they appear. */
  function WithKey(s: seq<Media>, k: Key, order: SortBy): seq<Media>
  {
    if s == [] then []
    else (if Rank(s[0], order) == k then [s[0]] else []) + WithKey(s[1..], k, order)
  }

  /**
   * Places `x` in front of the first record whose key is not greater than its
   * own: after every record of greater key, before every record of equal key.
   */
  function Insert(x: Media, r: seq<Media>, order: SortBy): seq<Media>
  {
    if r == [] then [x]
    else if KeyLe(Rank(r[0], order), Rank(x, order)) then [x] + r
    else [r[0]] + Insert(x, r[1..], order)
  }

  lemma {:induction false} InsertPermutes(x: Media, r: seq<Media>, order: SortBy)
    ensures multiset(Insert(x, r, order)) == multiset(r) + multiset{x}
  {
    if r != [] && !KeyLe(Rank(r[0], order), Rank(x, order)) {
      InsertPermutes(x, r[1..], order);
      assert r == [r[0]] + r[1..];
    }
  }

  /** The stable descending sort: each record goes in front of the later records of equal key. */
  function SortDesc(s: seq<Media>, order: SortBy): (r: seq<Media>)
  {
    if s == [] then [] else Insert(s[0], SortDesc(s[1..], order), order)
  }

  lemma {:induction false} InsertDesc(x: Media, r: seq<Media>, order: SortBy)
    requires Desc(r, order)
    ensures Desc(Insert(x, r, order), order)
  {
    var q := Insert(x, r, order);
    if r == [] {
    } else if KeyLe(Rank(r[0], order), Rank(x, order)) {
      forall i, j | 0 <= i < j < |q| ensures KeyLe(Rank(q[j], order), Rank(q[i], order)) {
        if i == 0 && j > 1 {
          assert q[j] == r[j - 1];
          KeyLeTrans(Rank(r[j - 1], order), Rank(r[0], order), Rank(x, order));
        } else if i > 0 {
          assert q[i] == r[i - 1] && q[j] == r[j - 1];
        }
      }
    } else {
      KeyLeTotal(Rank(r[0], order), Rank(x, order));
      InsertDesc(x, r[1..], order);
      InsertBounded(x, r[1..], Rank(r[0], order), order);
      var t := Insert(x, r[1..], order);
      assert q == [r[0]] + t;
      forall i, j | 0 <= i < j < |q| ensures KeyLe(Rank(q[j], order), Rank(q[i], order)) {
        if i == 0 {
          assert q[j] == t[j - 1];
        } else {
          assert q[i] == t[i - 1] && q[j] == t[j - 1];
        }
      }
    }
  }

  /** Inserting a record no greater than a bound keeps every record no greater than it. */
  lemma {:induction false} InsertBounded(x: Media, r: seq<Media>, b: Key, order: SortBy)
    requires KeyLe(Rank(x, order), b)
    requires forall i :: 0 <= i < |r| ==> KeyLe(Rank(r[i], order), b)
    ensures forall i :: 0 <= i < |Insert(x, r, order)| ==> KeyLe(Rank(Insert(x, r, order)[i], order), b)
  {
    if r != [] && !KeyLe(Rank(r[0], order), Rank(x, order)) {
      InsertBounded(x, r[1..], b, order);
      var q := Insert(x, r, order);
      assert q == [r[0]] + Insert(x, r[1..], order);
      forall i | 0 < i < |q| ensures KeyLe(Rank(q[i], order), b) {
        assert q[i] == Insert(x, r[1..], order)[i - 1];
      }
    } else if r != [] {
      var q := Insert(x, r, order);
      forall i | 0 < i < |q| ensures KeyLe(Rank(q[i], order), b) {
        assert q[i] == r[i - 1];
      }
    }
  }

  lemma {:induction false} SortDescDesc(s: seq<Media>, order: SortBy)
    ensures Desc(SortDesc(s, order), order)
  {
    if s != [] {
      SortDescDesc(s[1..], order);
      InsertDesc(s[0], SortDesc(s[1..], order), order);
    }
  }

  lemma {:induction false} SortDescPermutes(s: seq<Media>, order: SortBy)
    ensures multiset(SortDesc(s, order)) == multiset(s)
  {
    if s != [] {
      SortDescPermutes(s[1..], order);
      InsertPermutes(s[0], SortDesc(s[1..], order), order);
      assert s == [s[0]] + s[1..];
    }
  }

  lemma DescTail(r: seq<Media>, order: SortBy)
    requires r != [] && Desc(r, order)
    ensures Desc(r[1..], order)
  {
    forall i, j | 0 <= i < j < |r[1..]| ensures KeyLe(Rank(r[1..][j], order), Rank(r[1..][i], order)) {
      assert r[1..][i] == r[i + 1] && r[1..][j] == r[j + 1];
    }
  }

  /** Inserting a record of another key leaves the records of key `k` as they were. */
  lemma {:induction false} InsertOtherKey(x: Media, r: seq<Media>, k: Key, order: SortBy)
    requires Rank(x, order) != k
    ensures WithKey(Insert(x, r, order), k, order) == WithKey(r, k, order)
  {
    if r == [] {
    } else if KeyLe(Rank(r[0], order), Rank(x, order)) {
      assert Insert(x, r, order)[1..] == r;
    } else {
      InsertOtherKey(x, r[1..], k, order);
      assert Insert(x, r, order)[1..] == Insert(x, r[1..], order);
    }
  }

  /** Inserting into a descending list puts `x` first among the records of its key. */
  lemma {:induction false} InsertSameKey(x: Media, r: seq<Media>, order: SortBy)
    requires Desc(r, order)
    ensures WithKey(Insert(x, r, order), Rank(x, order), order) == [x] + WithKey(r, Rank(x, order), order)
  {
    var k := Rank(x, order);
    if r == [] {
    } else if KeyLe(Rank(r[0], order), k) {
      assert Insert(x, r, order)[1..] == r;
    } else {
      KeyLeRefl(k);
      assert Rank(r[0], order) != k;
      DescTail(r, order);
      InsertSameKey(x, r[1..], order);
      assert Insert(x, r, order)[1..] == Insert(x, r[1..], order);
    }
  }

  /**
   * Stability: for every key, the records of that key keep their original
   * relative order.
   */
  lemma {:induction false} SortDescStable(s: seq<Media>, k: Key, order: SortBy)
    ensures WithKey(SortDesc(s, order), k, order) == WithKey(s, k, order)
  {
    if s != [] {
      SortDescStable(s[1..], k, order);
      SortDescDesc(s[1..], order);
      if Rank(s[0], order) == k {
        InsertSameKey(s[0], SortDesc(s[1..], order), order);
      } else {
        InsertOtherKey(s[0], SortDesc(s[1..], order), k, order);
      }
    }
  }

  // ---- what the call does ----

  /** Every key is of the given kind. */
  predicate AllNum(ms: seq<Media>, order: SortBy)
  {
    forall i :: 0 <= i < |ms| ==> Rank(ms[i], order).Num?
  }

  predicate AllText(ms: seq<Media>, order: SortBy)
  {
    forall i :: 0 <= i < |ms| ==> Rank(ms[i], order).Text?
  }

  /**
   * `sorted(media_list, key=..., reverse=True)`: fewer than two records are
   * never compared; otherwise the keys must be all numbers or all strings.
   */
  function SortMedia(ms: seq<Media>, order: SortBy): (r: Result<seq<Media>>)
    ensures r.Err? <==> |ms| >= 2 && !AllNum(ms, order) && !AllText(ms, order)
    ensures r.Err? ==> r.fault == Unorderable
    ensures r.Ok? ==> multiset(r.value) == multiset(ms) && Desc(r.value, order)
    ensures r.Ok? ==> forall k :: WithKey(r.value, k, order) == WithKey(ms, k, order)
  {
    if |ms| <= 1 then
      Ok(ms)
    else if AllNum(ms, order) || AllText(ms, order) then
      SortDescDesc(ms, order);
      SortDescPermutes(ms, order);
      forall k ensures WithKey(SortDesc(ms, order), k, order) == WithKey(ms, k, order) {
        SortDescStable(ms, k, order);
      }
      Ok(SortDesc(ms, order))
    else
      Err(Unorderable)
  }
}
