/** JSON values as the contract crate holds them: an object is a map, so member
    order and repeated keys do not exist at this level, and maps are walked in
    the order of their keys. */
module Json {
  /** A number, kept as the token it prints as. */
  type NumberToken = s: string | IsNumberToken(s) witness "0"

  predicate Digit(c: char) { '0' <= c <= '9' }

  /** The number of digits that a text begins with. */
  function DigitsOf(s: string): (n: nat)
    ensures n <= |s|
    ensures forall i :: 0 <= i < n ==> Digit(s[i])
    ensures n < |s| ==> !Digit(s[n])
  {
    if s == [] || !Digit(s[0]) then 0 else 1 + DigitsOf(s[1..])
  }

  // The grammar of numbers (section 6 of RFC 8259).

  predicate IsExponent(s: string) {
    s == [] ||
    ((s[0] == 'e' || s[0] == 'E') &&
     var digits := if |s| > 1 && (s[1] == '+' || s[1] == '-') then s[2..] else s[1..];
     digits != [] && DigitsOf(digits) == |digits|)
  }

  predicate IsFraction(s: string) {
    if s != [] && s[0] == '.' then DigitsOf(s[1..]) > 0 && IsExponent(s[1 + DigitsOf(s[1..])..]) else IsExponent(s)
  }

  predicate IsNumberToken(s: string) {
    var unsigned := if s != [] && s[0] == '-' then s[1..] else s;
    var n := DigitsOf(unsigned);
    n > 0 && (n == 1 || unsigned[0] != '0') && IsFraction(unsigned[n..])
  }

  datatype Json =
    | Null
    | Bool(b: bool)
    | Num(token: NumberToken)
    | Str(text: string)
    | Arr(elements: seq<Json>)
    | Obj(members: map<string, Json>)

  /** The strict order of keys: lexicographic by code point, which is the order
      of their UTF-8 bytes. */
  predicate Before(a: string, b: string) {
    b != [] && (a == [] || a[0] < b[0] || (a[0] == b[0] && Before(a[1..], b[1..])))
  }

  /** At `i`, where they first differ, `a` ends or has the smaller character. */
  predicate SmallerAt(a: string, b: string, i: nat) {
    i <= |a| && i < |b| && a[..i] == b[..i] && (i == |a| || a[i] < b[i])
  }

  lemma {:induction false} FindSmaller(a: string, b: string) returns (i: nat)
    requires Before(a, b)
    ensures SmallerAt(a, b, i)
  {
    if a == [] || a[0] < b[0] {
      i := 0;
    } else {
      i := FindSmaller(a[1..], b[1..]);
      i := i + 1;
      assert a[..i] == [a[0]] + a[1..][..i - 1] && b[..i] == [b[0]] + b[1..][..i - 1];
    }
  }

  lemma {:induction false} SmallerIsBefore(a: string, b: string, i: nat)
    requires SmallerAt(a, b, i)
    ensures Before(a, b)
  {
    if i > 0 {
      assert a[0] == a[..i][0] && b[0] == b[..i][0];
      assert a[1..][..i - 1] == a[..i][1..] && b[1..][..i - 1] == b[..i][1..];
      SmallerIsBefore(a[1..], b[1..], i - 1);
    }
  }

  /** The order is the lexicographic one. */
  lemma BeforeIff(a: string, b: string)
    ensures Before(a, b) <==> exists i: nat :: SmallerAt(a, b, i)
  {
    if Before(a, b) {
      var i := FindSmaller(a, b);
    }
    if i: nat :| SmallerAt(a, b, i) {
      SmallerIsBefore(a, b, i);
    }
  }

  lemma {:induction false} BeforeTotal(a: string, b: string)
    ensures Before(a, b) || Before(b, a) || a == b
    ensures !(Before(a, b) && Before(b, a))
  {
    if a != [] && b != [] {
      BeforeTotal(a[1..], b[1..]);
      if a[0] == b[0] && a[1..] == b[1..] {
        assert a == [a[0]] + a[1..] == b;
      }
    }
  }

  lemma {:induction false} BeforeTransitive(a: string, b: string, c: string)
    requires Before(a, b) && Before(b, c)
    ensures Before(a, c)
  {
    if a != [] && a[0] == b[0] == c[0] {
      BeforeTransitive(a[1..], b[1..], c[1..]);
    }
  }

  predicate IsLeast(k: string, ks: set<string>) {
    k in ks && forall j :: j in ks ==> j == k || Before(k, j)
  }

  lemma {:induction false} LeastExists(ks: set<string>)
    requires ks != {}
    ensures exists k :: IsLeast(k, ks)
  {
    var k :| k in ks;
    var rest := ks - {k};
    if rest == {} {
      assert forall j :: j in ks && j != k ==> j in rest;
      assert IsLeast(k, ks);
    } else {
      LeastExists(rest);
      var l :| IsLeast(l, rest);
      BeforeTotal(k, l);
      if Before(k, l) {
        forall j | j in ks && j != k && j != l
          ensures Before(k, j)
        {
          BeforeTransitive(k, l, j);
        }
        assert IsLeast(k, ks);
      } else {
        assert IsLeast(l, ks);
      }
    }
  }

  lemma LeastUnique(ks: set<string>)
    ensures forall k, l :: IsLeast(k, ks) && IsLeast(l, ks) ==> k == l
  {
    forall k, l | IsLeast(k, ks) && IsLeast(l, ks)
      ensures k == l
    {
      BeforeTotal(k, l);
    }
  }

  predicate Ascending(ks: seq<string>) {
    forall i, j :: 0 <= i < j < |ks| ==> Before(ks[i], ks[j])
  }

  /** The keys of a map in the order in which the map is walked. */
  function SortedKeys(ks: set<string>): (sorted: seq<string>)
    ensures Ascending(sorted)
    ensures forall k :: k in sorted <==> k in ks
    ensures |sorted| == |ks|
  {
    if ks == {} then []
    else
      LeastExists(ks);
      LeastUnique(ks);
      var k :| IsLeast(k, ks);
      [k] + SortedKeys(ks - {k})
  }

  /** The two objects agree on the member `k`. */
  predicate SameAt(r: map<string, Json>, s: map<string, Json>, k: string) {
    (k in r <==> k in s) && (k in r && k in s ==> r[k] == s[k])
  }

  lemma SameMaps(r: map<string, Json>, s: map<string, Json>)
    ensures r == s <==> forall k :: SameAt(r, s, k)
  {
    if forall k :: SameAt(r, s, k) {
      forall k
        ensures k in r <==> k in s
        ensures k in r && k in s ==> r[k] == s[k]
      {
        assert SameAt(r, s, k);
      }
      assert r.Keys == s.Keys;
    }
  }

  function Values(members: map<string, Json>, keys: seq<string>): (vs: seq<Json>)
    requires forall k :: k in keys ==> k in members
    ensures |vs| == |keys|
    ensures forall i :: 0 <= i < |vs| ==> vs[i] == members[keys[i]]
  {
    seq(|keys|, i requires 0 <= i < |keys| => members[keys[i]])
  }

  /** What an object or an array holds, in the order in which it is walked. */
  function Children(v: Json): (vs: seq<Json>)
    ensures forall i :: 0 <= i < |vs| ==> vs[i] < v
    ensures v.Obj? ==> |vs| == |v.members|
    ensures v.Obj? ==> forall i :: 0 <= i < |vs| ==> vs[i] == v.members[SortedKeys(v.members.Keys)[i]]
    ensures v.Arr? ==> vs == v.elements
  {
    match v
    case Arr(elements) => elements
    case Obj(members) => Values(members, SortedKeys(members.Keys))
    case _ => []
  }
}
