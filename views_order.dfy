/**
 * The order in which the app lists the extracted videos: the view count is read with
 * JavaScript's parseInt after dropping commas (a string without a number counts as -1),
 * and the list is sorted by that count, highest first, with a stable sort.
 */
module ViewsOrder {
  import opened Wrappers
  import opened Text
  import opened Types

  // ---------------------------------------------------------------------------------
  // parseInt(s, 10)

  /** The WhiteSpace and LineTerminator code points that parseInt skips at the start. */
  predicate IsJsWhiteSpace(c: char) {
    c == '\t' || c == '\n' || c == '\U{B}' || c == '\U{C}' || c == '\r' || c == ' '
    || c == '\U{A0}' || c == '\U{1680}' || ('\U{2000}' <= c <= '\U{200A}')
    || c == '\U{2028}' || c == '\U{2029}' || c == '\U{202F}' || c == '\U{205F}'
    || c == '\U{3000}' || c == '\U{FEFF}'
  }

  /** The string without its leading white space. */
  function TrimStart(s: string): (t: string)
    ensures |t| <= |s| && t == s[|s| - |t|..]
    ensures forall i :: 0 <= i < |s| - |t| ==> IsJsWhiteSpace(s[i])
    ensures t == [] || !IsJsWhiteSpace(t[0])
  {
    if s != [] && IsJsWhiteSpace(s[0]) then TrimStart(s[1..]) else s
  }

  /** The longest prefix of decimal digits. */
  function LeadingDigits(s: string): (d: string)
    ensures AllDigits(d) && |d| <= |s| && d == s[..|d|]
    ensures |d| < |s| ==> !IsDigit(s[|d|])
  {
    if s != [] && IsDigit(s[0]) then [s[0]] + LeadingDigits(s[1..]) else []
  }

  /** parseInt(s, 10): white space, an optional sign, then at least one digit; None is NaN. */
  function ParseInt(s: string): Option<int> {
    var t := TrimStart(s);
    var negative := t != [] && t[0] == '-';
    var u := if t != [] && (t[0] == '-' || t[0] == '+') then t[1..] else t;
    var d := LeadingDigits(u);
    if d == [] then None
    else var v: int := DigitsValue(d); Some(if negative then -v else v)
  }

  /** s.replace(/,/g, ''). */
  function RemoveCommas(s: string): string {
    if s == [] then []
    else if s[0] == ',' then RemoveCommas(s[1..])
    else [s[0]] + RemoveCommas(s[1..])
  }

  /** The count a views string sorts by when parseInt finds no number. */
  const UnparsedViews: int := -1

  /** parseViews from the sort comparator. */
  function ParseViews(views: string): int {
    match ParseInt(RemoveCommas(views))
    case None => UnparsedViews
    case Some(n) => n
  }

  function ViewsOf(v: VideoData): int {
    ParseViews(v.views)
  }

  // ---------------------------------------------------------------------------------
  // What parseViews reads

  lemma {:induction false} LeadingDigitsOfDigits(s: string)
    requires AllDigits(s)
    ensures LeadingDigits(s) == s
  {
    if s != [] {
      LeadingDigitsOfDigits(s[1..]);
    }
  }

  /** A non-empty string of digits parses to its value. */
  lemma ParseIntDigits(s: string)
    requires s != [] && AllDigits(s)
    ensures ParseInt(s) == Some(DigitsValue(s))
  {
    assert !IsJsWhiteSpace(s[0]) && s[0] != '-' && s[0] != '+' by {
      assert IsDigit(s[0]);
    }
    assert TrimStart(s) == s;
    LeadingDigitsOfDigits(s);
  }

  /** parseInt reads back what String(n) writes. */
  lemma ParseIntDecimal(n: nat)
    ensures ParseInt(Decimal(n)) == Some(n)
  {
    ParseIntDigits(Decimal(n));
    DecimalRoundTrip(n);
  }

  lemma {:induction false} RemoveCommasAppend(a: string, b: string)
    ensures RemoveCommas(a + b) == RemoveCommas(a) + RemoveCommas(b)
  {
    if a != [] {
      assert (a + b)[0] == a[0];
      assert (a + b)[1..] == a[1..] + b;
      RemoveCommasAppend(a[1..], b);
    } else {
      assert a + b == b;
    }
  }

  lemma {:induction false} RemoveCommasOfDigits(s: string)
    requires AllDigits(s)
    ensures RemoveCommas(s) == s
  {
    if s != [] {
      RemoveCommasOfDigits(s[1..]);
    }
  }

  /** Removing commas keeps every other character, so it adds no digit. */
  lemma {:induction false} RemoveCommasNoDigit(s: string)
    requires !HasDigit(s)
    ensures !HasDigit(RemoveCommas(s))
  {
    if s != [] {
      assert !HasDigit(s[1..]) by {
        forall i | 0 <= i < |s[1..]| ensures !IsDigit(s[1..][i]) {
          assert s[1..][i] == s[i + 1];
        }
      }
      RemoveCommasNoDigit(s[1..]);
    }
  }

  lemma NoDigitSuffix(s: string, k: nat)
    requires !HasDigit(s) && k <= |s|
    ensures !HasDigit(s[k..])
  {
    forall i | 0 <= i < |s[k..]| ensures !IsDigit(s[k..][i]) {
      assert s[k..][i] == s[k + i];
    }
  }

  /** A string with no decimal digit parses to NaN. */
  lemma ParseIntNoDigit(s: string)
    requires !HasDigit(s)
    ensures ParseInt(s) == None
  {
    var t := TrimStart(s);
    NoDigitSuffix(s, |s| - |t|);
    if t != [] && (t[0] == '-' || t[0] == '+') {
      NoDigitSuffix(t, 1);
    }
  }

  /** Views without any digit ('N/A', 'Erro ao buscar', 'Erro de rede') sort as -1. */
  lemma ParseViewsNoDigit(views: string)
    requires !HasDigit(views)
    ensures ParseViews(views) == UnparsedViews
  {
    RemoveCommasNoDigit(views);
    ParseIntNoDigit(RemoveCommas(views));
  }

  /** A view count as the API returns it, a string of digits, sorts by its value. */
  lemma ParseViewsDigits(views: string)
    requires views != [] && AllDigits(views)
    ensures ParseViews(views) == DigitsValue(views) >= 0
  {
    RemoveCommasOfDigits(views);
    ParseIntDigits(views);
  }

  /** Joining the pieces with commas and removing the commas gives their concatenation. */
  lemma {:induction false} RemoveCommasJoin(groups: seq<string>)
    requires forall i :: 0 <= i < |groups| ==> AllDigits(groups[i])
    ensures RemoveCommas(Join(groups, ",")) == Concat(groups)
  {
    if |groups| == 1 {
      RemoveCommasOfDigits(groups[0]);
      assert Concat(groups) == groups[0] + Concat([]);
    } else if |groups| > 1 {
      RemoveCommasJoin(groups[1..]);
      RemoveCommasAppend(groups[0] + ",", Join(groups[1..], ","));
      RemoveCommasAppend(groups[0], ",");
      RemoveCommasOfDigits(groups[0]);
    }
  }

  /** "1,234,567" sorts as 1234567: thousands commas do not cut the number short. */
  lemma ParseViewsCommaGroups(groups: seq<string>)
    requires forall i :: 0 <= i < |groups| ==> AllDigits(groups[i])
    requires Concat(groups) != []
    ensures AllDigits(Concat(groups))
    ensures ParseViews(Join(groups, ",")) == DigitsValue(Concat(groups))
  {
    RemoveCommasJoin(groups);
    ConcatDigits(groups);
    ParseIntDigits(Concat(groups));
  }

  lemma {:induction false} ConcatDigits(groups: seq<string>)
    requires forall i :: 0 <= i < |groups| ==> AllDigits(groups[i])
    ensures AllDigits(Concat(groups))
  {
    if groups != [] {
      ConcatDigits(groups[1..]);
      var a, b := groups[0], Concat(groups[1..]);
      forall i | 0 <= i < |a + b| ensures IsDigit((a + b)[i]) {
        if i < |a| {
          assert (a + b)[i] == a[i];
        } else {
          assert (a + b)[i] == b[i - |a|];
        }
      }
    }
  }

  // ---------------------------------------------------------------------------------
  // A stable sort by a key, highest key first

  /**
   * Places x after the leading entries whose key is strictly greater, so that it lands in
   * front of the entries with an equal key.
   */
  function Insert<T>(x: T, t: seq<T>, key: T -> int): seq<T> {
    if t == [] || key(x) >= key(t[0]) then [x] + t
    else [t[0]] + Insert(x, t[1..], key)
  }

  /** Array.prototype.sort with the comparator key(b) - key(a), which is stable. */
  function SortDesc<T>(s: seq<T>, key: T -> int): seq<T> {
    if s == [] then [] else Insert(s[0], SortDesc(s[1..], key), key)
  }

  predicate NonIncreasing<T>(t: seq<T>, key: T -> int) {
    forall i, j :: 0 <= i < j < |t| ==> key(t[i]) >= key(t[j])
  }

  /** The entries with key k, in their order. */
  function WithKey<T>(s: seq<T>, key: T -> int, k: int): seq<T> {
    if s == [] then []
    else (if key(s[0]) == k then [s[0]] else []) + WithKey(s[1..], key, k)
  }

  lemma {:induction false} InsertPermutation<T>(x: T, t: seq<T>, key: T -> int)
    ensures multiset(Insert(x, t, key)) == multiset{x} + multiset(t)
  {
    if !(t == [] || key(x) >= key(t[0])) {
      InsertPermutation(x, t[1..], key);
      assert t == [t[0]] + t[1..];
    }
  }

  lemma {:induction false} InsertSorted<T>(x: T, t: seq<T>, key: T -> int)
    requires NonIncreasing(t, key)
    ensures NonIncreasing(Insert(x, t, key), key)
  {
    if !(t == [] || key(x) >= key(t[0])) {
      var rest := Insert(x, t[1..], key);
      InsertSorted(x, t[1..], key);
      InsertPermutation(x, t[1..], key);
      forall j | 0 <= j < |rest| ensures key(t[0]) >= key(rest[j]) {
        assert rest[j] in multiset(rest);
        if rest[j] != x {
          assert rest[j] in multiset(t[1..]);
          var m :| 0 <= m < |t[1..]| && t[1..][m] == rest[j];
          assert t[1..][m] == t[m + 1];
        }
      }
    }
  }

  lemma {:induction false} InsertStable<T>(x: T, t: seq<T>, key: T -> int, k: int)
    ensures WithKey(Insert(x, t, key), key, k) == WithKey([x] + t, key, k)
  {
    if !(t == [] || key(x) >= key(t[0])) {
      InsertStable(x, t[1..], key, k);
      assert ([t[0]] + Insert(x, t[1..], key))[1..] == Insert(x, t[1..], key);
      assert ([x] + t[1..])[1..] == t[1..];
      assert ([x] + t)[1..] == t;
      assert t == [t[0]] + t[1..];
    }
  }

  /** The sorted list is a rearrangement of the input. */
  lemma {:induction false} SortPermutation<T>(s: seq<T>, key: T -> int)
    ensures multiset(SortDesc(s, key)) == multiset(s)
  {
    if s != [] {
      SortPermutation(s[1..], key);
      InsertPermutation(s[0], SortDesc(s[1..], key), key);
      assert s == [s[0]] + s[1..];
    }
  }

  /** The sorted list has its keys in non-increasing order. */
  lemma {:induction false} SortSorted<T>(s: seq<T>, key: T -> int)
    ensures NonIncreasing(SortDesc(s, key), key)
  {
    if s != [] {
      SortSorted(s[1..], key);
      InsertSorted(s[0], SortDesc(s[1..], key), key);
    }
  }

  /** Entries with equal keys keep their relative order. */
  lemma {:induction false} SortStable<T>(s: seq<T>, key: T -> int, k: int)
    ensures WithKey(SortDesc(s, key), key, k) == WithKey(s, key, k)
  {
    if s != [] {
      SortStable(s[1..], key, k);
      InsertStable(s[0], SortDesc(s[1..], key), key, k);
      assert ([s[0]] + SortDesc(s[1..], key))[1..] == SortDesc(s[1..], key);
    }
  }

  lemma WithKeyHead<T>(t: seq<T>, key: T -> int)
    requires t != []
    ensures WithKey(t, key, key(t[0])) != [] && WithKey(t, key, key(t[0]))[0] == t[0]
  {
  }

  /** An entry with key k shows up in WithKey(t, key, k) only if some entry has key k. */
  lemma {:induction false} WithKeyMember<T>(t: seq<T>, key: T -> int, k: int)
    requires WithKey(t, key, k) != []
    ensures exists i :: 0 <= i < |t| && key(t[i]) == k
  {
    if key(t[0]) != k {
      WithKeyMember(t[1..], key, k);
      var i :| 0 <= i < |t[1..]| && key(t[1..][i]) == k;
      assert t[1..][i] == t[i + 1];
    }
  }

  lemma WithKeyTail<T>(t: seq<T>, u: seq<T>, key: T -> int, k: int)
    requires t != [] && u != [] && t[0] == u[0]
    requires WithKey(t, key, k) == WithKey(u, key, k)
    ensures WithKey(t[1..], key, k) == WithKey(u[1..], key, k)
  {
    var h := if key(t[0]) == k then [t[0]] else [];
    var x, y := WithKey(t[1..], key, k), WithKey(u[1..], key, k);
    assert h + x == h + y;
    assert x == (h + x)[|h|..];
    assert y == (h + y)[|h|..];
  }

  /** Two non-increasing lists with the same entries per key, in the same order, are equal. */
  lemma {:induction false} SameArrangement<T>(t: seq<T>, u: seq<T>, key: T -> int)
    requires NonIncreasing(t, key) && NonIncreasing(u, key)
    requires forall k :: WithKey(t, key, k) == WithKey(u, key, k)
    ensures t == u
    decreases |t| + |u|
  {
    if t != [] || u != [] {
      if t == [] {
        WithKeyHead(u, key);
      } else if u == [] {
        WithKeyHead(t, key);
      } else {
        var a, b := key(t[0]), key(u[0]);
        WithKeyHead(t, key);
        WithKeyHead(u, key);
        WithKeyMember(u, key, a);
        WithKeyMember(t, key, b);
        assert a == b;
        assert t[0] == u[0];
        forall k ensures WithKey(t[1..], key, k) == WithKey(u[1..], key, k) {
          WithKeyTail(t, u, key, k);
        }
        SameArrangement(t[1..], u[1..], key);
        assert t == [t[0]] + t[1..] && u == [u[0]] + u[1..];
      }
    }
  }

  /**
   * The sort is the only arrangement of s that is non-increasing in the key and keeps
   * equal-key entries in their original order.
   */
  lemma SortUnique<T>(s: seq<T>, t: seq<T>, key: T -> int)
    requires NonIncreasing(t, key)
    requires forall k :: WithKey(t, key, k) == WithKey(s, key, k)
    ensures t == SortDesc(s, key)
  {
    SortSorted(s, key);
    forall k ensures WithKey(t, key, k) == WithKey(SortDesc(s, key), key, k) {
      SortStable(s, key, k);
    }
    SameArrangement(t, SortDesc(s, key), key);
  }

  // ---------------------------------------------------------------------------------
  // The videos, most viewed first

  /** [...videos].sort((a, b) => parseViews(b.views) - parseViews(a.views)). */
  function SortByViews(videos: seq<VideoData>): seq<VideoData> {
    SortDesc(videos, ViewsOf)
  }

  /**
   * The sorted list holds the same records, most viewed first, with records of equal
   * parsed views in their original order.
   */
  lemma SortByViewsSpec(videos: seq<VideoData>)
    ensures multiset(SortByViews(videos)) == multiset(videos)
    ensures forall i, j :: 0 <= i < j < |SortByViews(videos)| ==>
              ParseViews(SortByViews(videos)[i].views) >= ParseViews(SortByViews(videos)[j].views)
  {
    SortPermutation(videos, ViewsOf);
    SortSorted(videos, ViewsOf);
  }

  /** Records with the same parsed views appear in the sorted list as in the input. */
  lemma SortByViewsStable(videos: seq<VideoData>, views: int)
    ensures WithKey(SortByViews(videos), ViewsOf, views) == WithKey(videos, ViewsOf, views)
  {
    SortStable(videos, ViewsOf, views);
  }

  /** A record whose views hold no digit comes after every record with a count of zero or more. */
  lemma SentinelsLast(videos: seq<VideoData>, i: nat, j: nat)
    requires i < |SortByViews(videos)| && j < |SortByViews(videos)|
    requires !HasDigit(SortByViews(videos)[i].views)
    requires ParseViews(SortByViews(videos)[j].views) >= 0
    ensures j < i
  {
    var t := SortByViews(videos);
    SortSorted(videos, ViewsOf);
    ParseViewsNoDigit(t[i].views);
    KeyOrder(t, ViewsOf, i, j);
  }

  /** In a non-increasing list an entry with a smaller key comes later. */
  lemma KeyOrder<T>(t: seq<T>, key: T -> int, i: nat, j: nat)
    requires NonIncreasing(t, key) && i < |t| && j < |t|
    requires key(t[i]) < key(t[j])
    ensures j < i
  {
  }

  /** Views "100", "50" and "200" in that order come out as 200, 100, 50. */
  lemma ThreeVideosOrder(a: VideoData, b: VideoData, c: VideoData)
    requires a.views == "100" && b.views == "50" && c.views == "200"
    ensures SortByViews([a, b, c]) == [c, a, b]
  {
    HundredViews(a.views);
    FiftyViews(b.views);
    TwoHundredViews(c.views);
    SortThree(a, b, c, ViewsOf);
  }

  lemma SortThree<T>(a: T, b: T, c: T, key: T -> int)
    requires key(c) > key(a) > key(b)
    ensures SortDesc([a, b, c], key) == [c, a, b]
  {
    assert [a, b, c][1..] == [b, c] && [b, c][1..] == [c] && [c][1..] == [];
    assert SortDesc([c], key) == Insert(c, [], key) == [c];
    assert Insert(b, [c], key) == [c] + Insert(b, [], key) == [c, b];
    assert SortDesc([b, c], key) == [c, b];
    assert Insert(a, [b], key) == [a, b];
    assert Insert(a, [c, b], key) == [c] + Insert(a, [b], key);
  }

  /** parseViews reads back what String(n) writes. */
  lemma ParseViewsDecimal(n: nat)
    ensures ParseViews(Decimal(n)) == n
  {
    RemoveCommasOfDigits(Decimal(n));
    ParseIntDecimal(n);
  }

  lemma HundredViews(views: string)
    requires views == "100"
    ensures ParseViews(views) == 100
  {
    assert Decimal(10) == Decimal(1) + [DigitChar(0)];
    assert Decimal(100) == Decimal(10) + [DigitChar(0)];
    assert DigitChar(1) == '1' && DigitChar(0) == '0';
    assert Decimal(1) == "1";
    assert Decimal(10) == "10";
    assert Decimal(100) == views;
    ParseViewsDecimal(100);
  }

  lemma FiftyViews(views: string)
    requires views == "50"
    ensures ParseViews(views) == 50
  {
    assert Decimal(50) == Decimal(5) + "0";
    ParseViewsDecimal(50);
  }

  lemma TwoHundredViews(views: string)
    requires views == "200"
    ensures ParseViews(views) == 200
  {
    assert Decimal(20) == Decimal(2) + [DigitChar(0)];
    assert Decimal(200) == Decimal(20) + [DigitChar(0)];
    assert DigitChar(2) == '2' && DigitChar(0) == '0';
    assert Decimal(2) == "2";
    assert Decimal(20) == "20";
    assert Decimal(200) == views;
    ParseViewsDecimal(200);
  }
}
