/** The string operations the agent relies on: byte-wise ordering, trimming, cutting, decimal parsing. */
module Text {
  import opened Wrappers

  /** Lexicographic order, as `sort.Strings` uses it. */
  predicate Le(a: string, b: string) {
    a == [] || (b != [] && (a[0] < b[0] || (a[0] == b[0] && Le(a[1..], b[1..]))))
  }

  lemma {:induction false} LeTotal(a: string, b: string)
    ensures Le(a, b) || Le(b, a)
  {
    if a != [] && b != [] && a[0] == b[0] {
      LeTotal(a[1..], b[1..]);
    }
  }

  lemma {:induction false} LeAntisymmetric(a: string, b: string)
    requires Le(a, b) && Le(b, a)
    ensures a == b
  {
    if a != [] && b != [] {
      LeAntisymmetric(a[1..], b[1..]);
      assert a == [a[0]] + a[1..] && b == [b[0]] + b[1..];
    }
  }

  lemma {:induction false} LeTransitive(a: string, b: string, c: string)
    requires Le(a, b) && Le(b, c)
    ensures Le(a, c)
  {
    if a != [] && a[0] == b[0] && b[0] == c[0] {
      LeTransitive(a[1..], b[1..], c[1..]);
    }
  }

  ghost predicate Ascending(s: seq<string>) {
    forall i, j :: 0 <= i < j < |s| ==> Le(s[i], s[j])
  }

  /** `sort.Strings`, by insertion; `AscendingIsUnique` shows that the algorithm does not matter. */
  function Insert(k: string, s: seq<string>): (r: seq<string>)
    ensures multiset(r) == multiset(s) + multiset{k}
  {
    if s == [] then [k]
    else if Le(k, s[0]) then [k] + s
    else
      assert s == [s[0]] + s[1..];
      [s[0]] + Insert(k, s[1..])
  }

  function Sort(s: seq<string>): (r: seq<string>)
    ensures multiset(r) == multiset(s)
  {
    if s == [] then []
    else
      assert s == [s[0]] + s[1..];
      Insert(s[0], Sort(s[1..]))
  }

  lemma {:induction false} InsertAscends(k: string, s: seq<string>)
    requires Ascending(s)
    ensures Ascending(Insert(k, s))
  {
    if s == [] {
    } else if Le(k, s[0]) {
      forall j | 0 <= j < |s| ensures Le(k, s[j]) {
        if j > 0 { LeTransitive(k, s[0], s[j]); }
      }
    } else {
      LeTotal(k, s[0]);
      InsertAscends(k, s[1..]);
      var rest := Insert(k, s[1..]);
      forall j | 0 <= j < |rest| ensures Le(s[0], rest[j]) {
        assert rest[j] in multiset(rest);
        assert rest[j] == k || rest[j] in s[1..];
      }
    }
  }

  lemma {:induction false} SortAscends(s: seq<string>)
    ensures Ascending(Sort(s))
  {
    if s != [] {
      SortAscends(s[1..]);
      InsertAscends(s[0], Sort(s[1..]));
    }
  }

  lemma SameFirst(a: seq<string>, b: seq<string>)
    requires Ascending(a) && Ascending(b) && a != [] && b != []
    requires a[0] in b && b[0] in a
    ensures a[0] == b[0]
  {
    var i :| 0 <= i < |b| && b[i] == a[0];
    var j :| 0 <= j < |a| && a[j] == b[0];
    if i > 0 && j > 0 {
      LeAntisymmetric(a[0], b[0]);
    }
  }

  /** Two ascending arrangements of the same strings are equal: the sorting algorithm cannot show. */
  lemma {:induction false} AscendingIsUnique(a: seq<string>, b: seq<string>)
    requires Ascending(a) && Ascending(b)
    requires multiset(a) == multiset(b)
    ensures a == b
    decreases |a|
  {
    assert |multiset(a)| == |a| && |multiset(b)| == |b|;
    if a != [] {
      assert a[0] in multiset(b) && b[0] in multiset(a);
      SameFirst(a, b);
      assert a == [a[0]] + a[1..] && b == [b[0]] + b[1..];
      assert multiset(a[1..]) == multiset(a) - multiset{a[0]};
      assert multiset(b[1..]) == multiset(b) - multiset{b[0]};
      AscendingIsUnique(a[1..], b[1..]);
    }
  }

  /** White space as `unicode.IsSpace` has it. */
  predicate IsSpace(c: char) {
    var u := c as int;
    9 <= u <= 13 || u == 0x20 || u == 0x85 || u == 0xA0 || u == 0x1680 || 0x2000 <= u <= 0x200A
    || u == 0x2028 || u == 0x2029 || u == 0x202F || u == 0x205F || u == 0x3000
  }

  function TrimLeft(s: string): string {
    if s != [] && IsSpace(s[0]) then TrimLeft(s[1..]) else s
  }

  function TrimRight(s: string): string {
    if s != [] && IsSpace(s[|s| - 1]) then TrimRight(s[..|s| - 1]) else s
  }

  function TrimSpace(s: string): string {
    TrimRight(TrimLeft(s))
  }

  /** Trimming leaves nothing exactly when there is nothing but white space. */
  lemma {:induction false} TrimmedEmptyIffBlank(s: string)
    ensures TrimSpace(s) == "" <==> forall c :: c in s ==> IsSpace(c)
  {
    if s == [] {
    } else if IsSpace(s[0]) {
      TrimmedEmptyIffBlank(s[1..]);
      assert s == [s[0]] + s[1..];
    } else {
      TrimRightKeeps(s);
      assert s[0] in s;
    }
  }

  lemma {:induction false} TrimRightKeeps(s: string)
    requires s != [] && !IsSpace(s[0])
    ensures TrimRight(s) != []
  {
    if IsSpace(s[|s| - 1]) {
      TrimRightKeeps(s[..|s| - 1]);
    }
  }

  /** `strings.Cut(s, "=")`: the parts around the first separator, or nothing when there is none. */
  function Cut(s: string): Option<(string, string)> {
    if s == [] then None
    else if s[0] == '=' then Some(([], s[1..]))
    else
      match Cut(s[1..])
      case None => None
      case Some(p) => Some(([s[0]] + p.0, p.1))
  }

  /** Cutting `k=v` gives back `(k, v)` exactly when the key holds no separator. */
  lemma {:induction false} CutRendered(k: string, v: string)
    ensures Cut(k + "=" + v) == Some((k, v)) <==> '=' !in k
    ensures Cut(k + "=" + v).Some? && '=' !in Cut(k + "=" + v).value.0
  {
    var s := k + "=" + v;
    if k == [] {
      assert s[1..] == v;
    } else {
      assert s[1..] == k[1..] + "=" + v;
      CutRendered(k[1..], v);
      assert k == [k[0]] + k[1..];
      if k[0] == '=' {
        assert Cut(s).value.0 == [];
      } else {
        var p := Cut(s[1..]).value;
        assert Cut(s) == Some(([s[0]] + p.0, p.1));
        assert ([s[0]] + p.0)[1..] == p.0;
      }
    }
  }

  function Digits(s: string): Option<nat> {
    if s == [] then None
    else
      var c := s[|s| - 1];
      if !('0' <= c <= '9') then None
      else if |s| == 1 then Some(c as int - '0' as int)
      else
        match Digits(s[..|s| - 1])
        case None => None
        case Some(n) => Some(10 * n + (c as int - '0' as int))
  }

  const MaxInt64: int := 0x7FFF_FFFF_FFFF_FFFF

  /** `strconv.Atoi`: an optional sign, decimal digits, and a result that fits 64 bits. */
  function Atoi(s: string): Option<int> {
    if s != [] && (s[0] == '-' || s[0] == '+') then
      match Digits(s[1..])
      case Some(n) =>
        var v: int := if s[0] == '-' then 0 - n as int else n;
        if -MaxInt64 - 1 <= v <= MaxInt64 then Some(v) else None
      case None => None
    else
      match Digits(s)
      case Some(n) => if n <= MaxInt64 then Some(n) else None
      case None => None
  }
}
