/** Values and sequence/string helpers shared by every part of the storefront model. */
module Common {

  /** An optional value: a field that may be absent, a lookup that may miss. */
  datatype Option<T> = None | Some(value: T)

  /** What an HTTP handler answers: a success with its status and payload, or an error status and message. */
  datatype Reply<T> = Ok(status: int, body: T) | Err(status: int, error: string)

  /** The claims of a verified session token; the login handler always signs a user id and a role. */
  datatype Claims = Claims(userId: string, role: string)

  /** JavaScript truthiness of an optional string field: present and not empty. */
  predicate Truthy(s: Option<string>)
  {
    s.Some? && s.value != ""
  }

  /** The outcome of saving one document: stored, refused by schema validation (with its
      messages), or refused by a unique index (a duplicate key). */
  datatype SaveResult = Saved | Invalid(messages: seq<string>) | DuplicateKey

  /** The leading words of the database driver's message for a save refused by a unique index. */
  const DuplicateKeyMessage := "E11000 duplicate key error"

  /** The validation message of an enumerated path holding a value outside its enumeration. */
  function EnumMessage(value: string, path: string): string
  {
    "`" + value + "` is not a valid enum value for path `" + path + "`."
  }

  // ---------------------------------------------------------------------------
  // Sequences
  // ---------------------------------------------------------------------------

  /** The elements of `s` satisfying `p`, in their original order (a database `find` with a filter). */
  function Filter<T>(s: seq<T>, p: T -> bool): (r: seq<T>)
    ensures |r| <= |s|
    ensures forall i :: 0 <= i < |r| ==> p(r[i])
  {
    if s == [] then []
    else if p(s[0]) then [s[0]] + Filter(s[1..], p)
    else Filter(s[1..], p)
  }

  /** An element is kept by `Filter` exactly when it is in the input and satisfies the predicate. */
  lemma {:induction false} FilterMembership<T>(s: seq<T>, p: T -> bool, x: T)
    ensures x in Filter(s, p) <==> x in s && p(x)
  {
    if s != [] {
      FilterMembership(s[1..], p, x);
      assert s == [s[0]] + s[1..];
    }
  }

  /** Filtering twice with two predicates is filtering once with their conjunction. */
  lemma {:induction false} FilterFilter<T>(s: seq<T>, p: T -> bool, q: T -> bool)
    ensures Filter(Filter(s, p), q) == Filter(s, x => p(x) && q(x))
  {
    if s != [] {
      FilterFilter(s[1..], p, q);
    }
  }

  /** Filtering a sequence with a given head. */
  lemma FilterCons<T>(x: T, s: seq<T>, p: T -> bool)
    ensures Filter([x] + s, p) == if p(x) then [x] + Filter(s, p) else Filter(s, p)
  {
    assert ([x] + s)[0] == x && ([x] + s)[1..] == s;
  }

  /** Filtering distributes over concatenation. */
  lemma {:induction false} FilterAppend<T>(a: seq<T>, b: seq<T>, p: T -> bool)
    ensures Filter(a + b, p) == Filter(a, p) + Filter(b, p)
  {
    if a == [] {
      assert a + b == b;
    } else {
      var x, t := a[0], a[1..];
      assert a == [x] + t;
      assert a + b == [x] + (t + b);
      FilterCons(x, t, p);
      FilterCons(x, t + b, p);
      FilterAppend(t, b, p);
      if p(x) {
        assert [x] + (Filter(t, p) + Filter(b, p)) == ([x] + Filter(t, p)) + Filter(b, p);
      }
    }
  }

  /** `s` back to front ("newest first" when `s` is in insertion order). */
  function Reverse<T>(s: seq<T>): (r: seq<T>)
    ensures |r| == |s|
    ensures forall i :: 0 <= i < |s| ==> r[i] == s[|s| - 1 - i]
  {
    if s == [] then [] else Reverse(s[1..]) + [s[0]]
  }

  /** Reversal keeps exactly the same elements. */
  lemma ReverseMembership<T>(s: seq<T>, x: T)
    ensures x in Reverse(s) <==> x in s
  {
    var r := Reverse(s);
    if x in s {
      var i :| 0 <= i < |s| && s[i] == x;
      assert r[|s| - 1 - i] == x;
    }
  }

  /** The elements satisfying `p`, newest first: a filtered query sorted by creation time,
      descending, over a sequence kept in creation order. */
  function NewestFirst<T(!new)>(s: seq<T>, p: T -> bool): (r: seq<T>)
    ensures r == Reverse(Filter(s, p))
    ensures forall x :: x in r <==> x in s && p(x)
    ensures |r| <= |s|
  {
    var f := Filter(s, p);
    forall x ensures x in Reverse(f) <==> x in s && p(x) {
      ReverseMembership(f, x);
      FilterMembership(s, p, x);
    }
    Reverse(f)
  }

  /** `key` never decreases along `s` (a sequence kept in creation order, keyed by creation time). */
  predicate Ascending<T>(s: seq<T>, key: T -> int)
  {
    forall i, j :: 0 <= i < j < |s| ==> key(s[i]) <= key(s[j])
  }

  /** `key` never increases along `s` (sorted with `-1` on that key). */
  predicate Descending<T>(s: seq<T>, key: T -> int)
  {
    forall i, j :: 0 <= i < j < |s| ==> key(s[i]) >= key(s[j])
  }

  /** Filtering keeps the order of what it keeps. */
  lemma {:induction false} FilterAscending<T>(s: seq<T>, p: T -> bool, key: T -> int)
    requires Ascending(s, key)
    ensures Ascending(Filter(s, p), key)
  {
    if s != [] {
      var t := s[1..];
      assert Ascending(t, key) by {
        forall i, j | 0 <= i < j < |t| ensures key(t[i]) <= key(t[j]) {
          assert t[i] == s[i + 1] && t[j] == s[j + 1];
        }
      }
      FilterAscending(t, p, key);
      var f := Filter(t, p);
      if p(s[0]) {
        forall k | 0 <= k < |f| ensures key(s[0]) <= key(f[k]) {
          assert f[k] in f;
          FilterMembership(t, p, f[k]);
          var m :| 0 <= m < |t| && t[m] == f[k];
          assert t[m] == s[m + 1];
        }
        var r := [s[0]] + f;
        forall i, j | 0 <= i < j < |r| ensures key(r[i]) <= key(r[j]) {
          if i > 0 {
            assert r[i] == f[i - 1];
          }
          assert r[j] == f[j - 1];
        }
      }
    }
  }

  /** Over a sequence in ascending creation order, a newest-first listing is in descending
      creation order: it is the query sorted by creation time, newest first. */
  lemma NewestFirstDescending<T(!new)>(s: seq<T>, p: T -> bool, key: T -> int)
    requires Ascending(s, key)
    ensures Descending(NewestFirst(s, p), key)
  {
    FilterAscending(s, p, key);
  }

  /** Index of the first element of `s` satisfying `p` (a database `findOne` over natural order). */
  function Find<T>(s: seq<T>, p: T -> bool): (r: Option<nat>)
    ensures r.Some? ==> r.value < |s| && p(s[r.value]) && forall j :: 0 <= j < r.value ==> !p(s[j])
    ensures r.None? ==> forall j :: 0 <= j < |s| ==> !p(s[j])
  {
    if s == [] then None
    else if p(s[0]) then Some(0)
    else match Find(s[1..], p)
      case None => None
      case Some(k) => Some(k + 1)
  }

  // ---------------------------------------------------------------------------
  // Strings
  // ---------------------------------------------------------------------------

  /** How many times `c` occurs in `s`. */
  function CountChar(s: string, c: char): nat
  {
    if s == [] then 0 else (if s[0] == c then 1 else 0) + CountChar(s[1..], c)
  }

  /** A character occurs somewhere exactly when its count is positive. */
  lemma {:induction false} CountCharPositive(s: string, c: char)
    ensures CountChar(s, c) > 0 <==> c in s
  {
    if s != [] {
      CountCharPositive(s[1..], c);
      assert c in s <==> s[0] == c || c in s[1..];
    }
  }

  /** Counting distributes over concatenation. */
  lemma {:induction false} CountCharAppend(a: string, b: string, c: char)
    ensures CountChar(a + b, c) == CountChar(a, c) + CountChar(b, c)
  {
    if a == [] {
      assert a + b == b;
    } else {
      CountCharAppend(a[1..], b, c);
      assert (a + b)[1..] == a[1..] + b;
    }
  }

  /** The first `n` characters of `s`, or all of it when it is shorter (JavaScript `slice(0, n)`). */
  function Prefix(s: string, n: nat): (r: string)
    ensures |r| <= n && StartsWith(s, r)
    ensures |s| <= n ==> r == s
    ensures |s| > n ==> |r| == n
  {
    if |s| <= n then s else s[..n]
  }

  /** ASCII lower-casing of one character. */
  function LowerChar(c: char): (r: char)
    ensures 'A' <= c <= 'Z' ==> 'a' <= r <= 'z' && r as int == c as int + 32
    ensures !('A' <= c <= 'Z') ==> r == c
  {
    if 'A' <= c <= 'Z' then (c as int + 32) as char else c
  }

  /** ASCII lower-casing of a string, character by character. */
  function ToLower(s: string): (r: string)
    ensures |r| == |s|
    ensures forall i :: 0 <= i < |s| ==> r[i] == LowerChar(s[i])
  {
    if s == [] then [] else [LowerChar(s[0])] + ToLower(s[1..])
  }

  /** `sub` occurs somewhere in `s` (JavaScript `includes`). */
  predicate Contains(s: string, sub: string)
  {
    exists i :: 0 <= i <= |s| - |sub| && OccursAt(s, sub, i)
  }

  /** `sub` occurs in `s` starting at index `i`. */
  predicate OccursAt(s: string, sub: string, i: int)
  {
    0 <= i <= |s| - |sub| && s[i..i + |sub|] == sub
  }

  /** `s` ends with `suffix`. */
  predicate EndsWith(s: string, suffix: string)
  {
    |suffix| <= |s| && s[|s| - |suffix|..] == suffix
  }

  /** `s` begins with `prefix`. */
  predicate StartsWith(s: string, prefix: string)
  {
    |prefix| <= |s| && s[..|prefix|] == prefix
  }

  /** The characters JavaScript's `trim` removes, restricted to the ASCII and common Unicode spaces. */
  predicate IsSpace(c: char)
  {
    c == ' ' || c == '\t' || c == '\n' || c == '\r' || c == '\U{000B}' || c == '\U{000C}'
    || c == '\U{00A0}' || c == '\U{FEFF}'
  }

  /** Where the leading spaces of `s` end, scanning forward from `i`. */
  function LeadingEnd(s: string, i: nat): (r: nat)
    requires i <= |s| && forall k :: 0 <= k < i ==> IsSpace(s[k])
    ensures i <= r <= |s| && forall k :: 0 <= k < r ==> IsSpace(s[k])
    ensures r < |s| ==> !IsSpace(s[r])
    decreases |s| - i
  {
    if i < |s| && IsSpace(s[i]) then LeadingEnd(s, i + 1) else i
  }

  /** Where the trailing spaces of `s` start, scanning back from `j` but not past `lo`. */
  function TrailingStart(s: string, lo: nat, j: nat): (r: nat)
    requires lo <= j <= |s| && forall k :: j <= k < |s| ==> IsSpace(s[k])
    ensures lo <= r <= j && forall k :: r <= k < |s| ==> IsSpace(s[k])
    ensures r > lo ==> !IsSpace(s[r - 1])
  {
    if j > lo && IsSpace(s[j - 1]) then TrailingStart(s, lo, j - 1) else j
  }

  /** Everything of `s` before `i` and from `j` on is a space. */
  predicate EdgeSpaces(s: string, i: int, j: int)
    requires 0 <= i <= j <= |s|
  {
    (forall k :: 0 <= k < i ==> IsSpace(s[k])) && (forall k :: j <= k < |s| ==> IsSpace(s[k]))
  }

  /** `s` without leading and trailing spaces (what a `trim: true` schema path stores). */
  function Trim(s: string): (r: string)
    ensures |r| <= |s|
    ensures exists i, j :: 0 <= i <= j <= |s| && r == s[i..j] && EdgeSpaces(s, i, j)
    ensures r == [] || (!IsSpace(r[0]) && !IsSpace(r[|r| - 1]))
  {
    var i := LeadingEnd(s, 0);
    var j := TrailingStart(s, i, |s|);
    assert EdgeSpaces(s, i, j);
    s[i..j]
  }

  /** Trimming leaves nothing exactly when the string is made of spaces only. */
  lemma TrimEmpty(s: string)
    ensures Trim(s) == [] <==> forall i :: 0 <= i < |s| ==> IsSpace(s[i])
  {
  }

  /** Sum of the lengths of `parts`. */
  function TotalLength(parts: seq<string>): nat
  {
    if parts == [] then 0 else |parts[0]| + TotalLength(parts[1..])
  }

  /** `parts` joined with `sep` between consecutive elements (JavaScript `join`). */
  function Join(parts: seq<string>, sep: string): (r: string)
    ensures parts != [] ==> StartsWith(r, parts[0])
  {
    if parts == [] then ""
    else if |parts| == 1 then parts[0]
    else parts[0] + sep + Join(parts[1..], sep)
  }

  /** A joined string holds every part and one separator between each pair of parts. */
  lemma {:induction false} JoinLength(parts: seq<string>, sep: string)
    requires parts != []
    ensures |Join(parts, sep)| == TotalLength(parts) + |sep| * (|parts| - 1)
  {
    if |parts| > 1 {
      JoinLength(parts[1..], sep);
    } else {
      assert TotalLength(parts[1..]) == 0;
    }
  }

  /** The digit character for `d`. */
  function DigitChar(d: nat): (c: char)
    requires d < 10
    ensures '0' <= c <= '9' && c as int - '0' as int == d
  {
    ('0' as int + d) as char
  }

  /** Decimal rendering of a natural number (JavaScript template-string interpolation of an integer). */
  function Decimal(n: nat): (r: string)
    ensures |r| > 0
    ensures forall i :: 0 <= i < |r| ==> '0' <= r[i] <= '9'
  {
    if n < 10 then [DigitChar(n)] else Decimal(n / 10) + [DigitChar(n % 10)]
  }

  /** Decimal rendering of an integer, with a leading minus sign when it is negative. */
  function IntText(n: int): string
  {
    if n >= 0 then Decimal(n) else "-" + Decimal(-n)
  }

  /** The value of a string of decimal digits. */
  function DecimalValue(s: string): nat
    requires forall i :: 0 <= i < |s| ==> '0' <= s[i] <= '9'
  {
    if s == [] then 0 else DecimalValue(s[..|s| - 1]) * 10 + (s[|s| - 1] as int - '0' as int)
  }

  /** Reading back a rendered number gives the number: the rendering loses nothing. */
  lemma {:induction false} DecimalRoundTrip(n: nat)
    ensures DecimalValue(Decimal(n)) == n
  {
    if n >= 10 {
      DecimalRoundTrip(n / 10);
      var s := Decimal(n);
      assert s[..|s| - 1] == Decimal(n / 10);
    }
  }
}
