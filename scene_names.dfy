// Sources/Scene.cpp, Scene::GetDefinitiveObjectName and the std::find / erase steps of
// the object, mesh and light lists: how the scene gives every object a name no other
// object has, and how it finds and removes a list element.
module SceneNames {

  // ------------------------------------------------------------- to_string

  function DigitChar(d: nat): (c: char)
    requires d < 10
    ensures '0' <= c <= '9'
  {
    (48 + d) as char
  }

  /** std::to_string of a non-negative integer: its decimal digits, most significant
      first, with no leading zero. */
  function DecimalString(n: nat): (r: string)
    ensures 1 <= |r|
    ensures forall i :: 0 <= i < |r| ==> '0' <= r[i] <= '9'
    ensures r[0] == '0' <==> n == 0
    decreases n
  {
    if n < 10 then [DigitChar(n)] else DecimalString(n / 10) + [DigitChar(n % 10)]
  }

  /** The value of a string of decimal digits. */
  function DecimalValue(s: string): nat
  {
    if |s| == 0 then 0
    else
      var c := s[|s| - 1];
      DecimalValue(s[..|s| - 1]) * 10 + (if '0' <= c <= '9' then c as int - 48 else 0)
  }

  /** Reading the digits back gives the number: to_string loses nothing. */
  lemma {:induction false} DecimalRoundTrip(n: nat)
    ensures DecimalValue(DecimalString(n)) == n
    decreases n
  {
    var s := DecimalString(n);
    if n >= 10 {
      DecimalRoundTrip(n / 10);
      assert s[..|s| - 1] == DecimalString(n / 10);
      assert s[|s| - 1] == DigitChar(n % 10);
    } else {
      assert s[..|s| - 1] == [];
    }
  }

  /** Distinct numbers have distinct decimal strings. */
  lemma DecimalStringInjective(a: nat, b: nat)
    requires DecimalString(a) == DecimalString(b)
    ensures a == b
  {
    DecimalRoundTrip(a);
    DecimalRoundTrip(b);
  }

  // ------------------------------------------------------------- candidates

  /** The k-th name GetDefinitiveObjectName tries for `name`: the name itself, then the
      name followed by 1, 2, ... */
  function NameAt(name: string, k: nat): (r: string)
    ensures |name| <= |r| && r[..|name|] == name
  {
    if k == 0 then name else name + DecimalString(k)
  }

  /** The candidates are pairwise distinct. */
  lemma NameAtInjective(name: string, j: nat, k: nat)
    requires NameAt(name, j) == NameAt(name, k)
    ensures j == k
  {
    assert |NameAt(name, j)| == |name| <==> j == 0;
    assert |NameAt(name, k)| == |name| <==> k == 0;
    if j != 0 && k != 0 {
      assert NameAt(name, j)[|name|..] == DecimalString(j);
      assert NameAt(name, k)[|name|..] == DecimalString(k);
      DecimalStringInjective(j, k);
    }
  }

  /** The first k candidates. */
  function Candidates(name: string, k: nat): set<string>
  {
    set j | 0 <= j < k :: NameAt(name, j)
  }

  lemma {:induction false} CandidatesCount(name: string, k: nat)
    ensures |Candidates(name, k)| == k
  {
    if k > 0 {
      CandidatesCount(name, k - 1);
      assert Candidates(name, k) == Candidates(name, k - 1) + {NameAt(name, k - 1)};
      if NameAt(name, k - 1) in Candidates(name, k - 1) {
        var j :| 0 <= j < k - 1 && NameAt(name, j) == NameAt(name, k - 1);
        NameAtInjective(name, j, k - 1);
      }
    }
  }

  /** A list holds at most as many distinct strings as it has entries. */
  lemma {:induction false} DistinctEntriesBound(names: seq<string>)
    ensures |set x | x in names| <= |names|
  {
    if |names| > 0 {
      var init := names[..|names| - 1];
      DistinctEntriesBound(init);
      assert (set x | x in names) == (set x | x in init) + {names[|names| - 1]};
    }
  }

  /** Pigeonhole: when the first k candidates are all taken, the list has at least k
      entries, so the search below stops after at most |names| steps. */
  lemma TakenCandidatesBound(names: seq<string>, name: string, k: nat)
    requires forall j :: 0 <= j < k ==> NameAt(name, j) in names
    ensures k <= |names|
  {
    var taken := set x | x in names;
    CandidatesCount(name, k);
    DistinctEntriesBound(names);
    assert Candidates(name, k) <= taken;
    assert taken == Candidates(name, k) + (taken - Candidates(name, k));
  }

  /** The search of GetDefinitiveObjectName over the names in use: the first candidate not
      among them, and its index. The index stays below the number of names, so the
      uint32_t counter of the source does not wrap while there are fewer than 2^32. */
  method DefinitiveName(names: seq<string>, name: string) returns (defName: string, nameIndex: nat)
    ensures defName == NameAt(name, nameIndex) && defName !in names
    ensures forall j :: 0 <= j < nameIndex ==> NameAt(name, j) in names
    ensures nameIndex <= |names|
    ensures name !in names ==> defName == name
  {
    defName := name;
    nameIndex := 0;
    while defName in names
      invariant defName == NameAt(name, nameIndex)
      invariant forall j :: 0 <= j < nameIndex ==> NameAt(name, j) in names
      invariant nameIndex <= |names|
      decreases |names| - nameIndex
    {
      TakenCandidatesBound(names, name, nameIndex + 1);
      nameIndex := nameIndex + 1;
      defName := name + DecimalString(nameIndex);
    }
  }

  // ------------------------------------------------------------ find / erase

  /** std::find as an index: the first position holding x, or |s| (end()) when none does. */
  function IndexOf<T(==)>(s: seq<T>, x: T): (r: nat)
    ensures r <= |s|
    ensures r < |s| ==> s[r] == x
    ensures forall j :: 0 <= j < r ==> s[j] != x
    ensures r == |s| <==> x !in s
  {
    if |s| == 0 then 0
    else if s[0] == x then 0
    else 1 + IndexOf(s[1..], x)
  }

  /** vector::erase of one position. */
  function Erase<T>(s: seq<T>, i: nat): (r: seq<T>)
    requires i < |s|
    ensures |r| == |s| - 1
    ensures forall j :: 0 <= j < i ==> r[j] == s[j]
    ensures forall j :: i <= j < |r| ==> r[j] == s[j + 1]
  {
    s[..i] + s[i + 1..]
  }

  /** Pairwise distinct entries. */
  predicate Distinct<T(==)>(s: seq<T>)
  {
    forall i, j :: 0 <= i < j < |s| ==> s[i] != s[j]
  }

  /** Erasing keeps the entries distinct and drops exactly the erased one. */
  lemma EraseKeepsDistinct<T>(s: seq<T>, i: nat)
    requires i < |s| && Distinct(s)
    ensures Distinct(Erase(s, i))
    ensures s[i] !in Erase(s, i)
    ensures forall x :: x in s && x != s[i] ==> x in Erase(s, i)
  {
    var r := Erase(s, i);
    forall x | x in s && x != s[i]
      ensures x in r
    {
      var k :| 0 <= k < |s| && s[k] == x;
      if k < i {
        assert r[k] == x;
      } else {
        assert r[k - 1] == x;
      }
    }
  }

  /** Finding x and erasing it when found: what RemoveObject, DeleteMesh and DeleteLight
      do to their list. */
  function Without<T(==)>(s: seq<T>, x: T): (r: seq<T>)
    ensures x in s ==> |r| == |s| - 1
    ensures x !in s ==> r == s
  {
    if x in s then Erase(s, IndexOf(s, x)) else s
  }

  /** The list paired with `keys` after the entry at x's position in `keys` is erased:
      what RemoveObject does to the names. */
  function WithoutAt<T(==), U>(keys: seq<T>, values: seq<U>, x: T): (r: seq<U>)
    requires |keys| == |values|
    ensures |r| == |Without(keys, x)|
  {
    if x in keys then Erase(values, IndexOf(keys, x)) else values
  }

  /** Removing what was just appended, and was not there before, gives the list back:
      removal undoes adding. */
  lemma WithoutUndoesAppend<T>(s: seq<T>, x: T)
    requires x !in s
    ensures Without(s + [x], x) == s
  {
    var i := IndexOf(s + [x], x);
    assert (s + [x])[|s|] == x;
  }

  /** The same for the paired list. */
  lemma WithoutAtUndoesAppend<T, U>(keys: seq<T>, values: seq<U>, x: T, v: U)
    requires x !in keys && |keys| == |values|
    ensures WithoutAt(keys + [x], values + [v], x) == values
  {
    var i := IndexOf(keys + [x], x);
    assert (keys + [x])[|keys|] == x;
  }

  /** Without removes the first x and keeps everything else, in order. */
  lemma WithoutKeepsOthers<T>(s: seq<T>, x: T)
    ensures forall y :: y != x ==> multiset(Without(s, x))[y] == multiset(s)[y]
    ensures x in s ==> multiset(Without(s, x))[x] == multiset(s)[x] - 1
  {
    if x in s {
      var i := IndexOf(s, x);
      assert s == s[..i] + [s[i]] + s[i + 1..];
      assert Without(s, x) == s[..i] + s[i + 1..];
    }
  }
}
