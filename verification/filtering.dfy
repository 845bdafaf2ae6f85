/**
 * The gender filter `df[df["gender"] == selected]` shared by the three
 * callbacks, and the dropdown options built from `df["gender"].unique()`.
 */
module Filtering {
  import opened Seqs
  import opened Records

  /** The boolean-mask filter: the rows whose gender equals `g` exactly, in table order. */
  function SelectGender(t: seq<Customer>, g: string): (r: seq<Customer>)
    ensures |r| <= |t|
    ensures forall x :: x in r ==> x in t && x.gender == g
  {
    if t == [] then []
    else (if t[0].gender == g then [t[0]] else []) + SelectGender(t[1..], g)
  }

  /** Each row of the selected gender is kept as often as it occurs; every other row is dropped. */
  lemma {:induction false} SelectGenderCounts(t: seq<Customer>, g: string)
    ensures forall x :: multiset(SelectGender(t, g))[x] == if x.gender == g then multiset(t)[x] else 0
  {
    if t != [] {
      SelectGenderCounts(t[1..], g);
      assert t == [t[0]] + t[1..];
    }
  }

  /** A row is selected exactly when it is in the table and has the selected gender. */
  lemma SelectGenderMembers(t: seq<Customer>, g: string)
    ensures forall x :: x in SelectGender(t, g) <==> x in t && x.gender == g
  {
  }

  /** The selected rows keep their relative order in the table. */
  lemma {:induction false} SelectGenderIsSubsequence(t: seq<Customer>, g: string)
    ensures IsSubsequence(SelectGender(t, g), t)
  {
    if t != [] {
      SelectGenderIsSubsequence(t[1..], g);
      var r := SelectGender(t, g);
      if t[0].gender == g {
        assert r[0] == t[0] && r[1..] == SelectGender(t[1..], g);
      } else {
        assert r == SelectGender(t[1..], g);
        if r != [] {
          assert r[0] in r;
          assert r[0] != t[0];
        }
      }
    }
  }

  /** A value is in the gender column exactly when some row has it. */
  lemma GenderOccurs(t: seq<Customer>, g: string)
    ensures g in Genders(t) <==> exists x :: x in t && x.gender == g
  {
    if g in Genders(t) {
      var i :| 0 <= i < |t| && Genders(t)[i] == g;
      assert t[i] in t;
    }
    forall x | x in t && x.gender == g ensures g in Genders(t) {
      var i :| 0 <= i < |t| && t[i] == x;
      assert Genders(t)[i] == g;
    }
  }

  /** A value that no row has selects nothing, and is not an error; any other value selects something. */
  lemma SelectGenderEmpty(t: seq<Customer>, g: string)
    ensures SelectGender(t, g) == [] <==> g !in Genders(t)
  {
    SelectGenderMembers(t, g);
    GenderOccurs(t, g);
    var r := SelectGender(t, g);
    assert r != [] ==> r[0] in r;
  }

  /** Filtering an already filtered subset by the same value changes nothing. */
  lemma {:induction false} SelectGenderIdempotent(t: seq<Customer>, g: string)
    ensures SelectGender(SelectGender(t, g), g) == SelectGender(t, g)
  {
    if t != [] {
      SelectGenderIdempotent(t[1..], g);
      var r := SelectGender(t, g);
      if t[0].gender == g {
        assert r[0] == t[0] && r[1..] == SelectGender(t[1..], g);
        assert SelectGender(r, g) == [r[0]] + SelectGender(r[1..], g);
      } else {
        assert r == SelectGender(t[1..], g);
      }
    }
  }

  /** Index of the first occurrence of `x` in `s`. */
  function FirstIndex<T(==)>(s: seq<T>, x: T): (i: nat)
    requires x in s
    ensures i < |s| && s[i] == x
    ensures forall j :: 0 <= j < i ==> s[j] != x
  {
    var p := s[..|s| - 1];
    if x in p then FirstIndex(p, x) else |s| - 1
  }

  /** pandas `Series.unique()`: the distinct values, each at the place it first appears. */
  function Unique(s: seq<string>): (u: seq<string>)
    ensures forall x :: x in u <==> x in s
    ensures NoDuplicates(u)
  {
    if s == [] then []
    else
      var p := s[..|s| - 1];
      var last := s[|s| - 1];
      var up := Unique(p);
      assert forall x :: x in s <==> x in p || x == last;
      if last in up then up else up + [last]
  }

  /** The values of Unique(s) come in the order of their first appearance in `s`. */
  lemma {:induction false} UniqueInFirstAppearanceOrder(s: seq<string>)
    ensures forall i, j :: 0 <= i < j < |Unique(s)| ==> FirstIndex(s, Unique(s)[i]) < FirstIndex(s, Unique(s)[j])
  {
    if s != [] {
      var p := s[..|s| - 1];
      var last := s[|s| - 1];
      UniqueInFirstAppearanceOrder(p);
      var up := Unique(p);
      var u := Unique(s);
      forall y | y in p ensures FirstIndex(s, y) == FirstIndex(p, y) {}
      if last !in up {
        assert FirstIndex(s, last) == |s| - 1;
        forall i, j | 0 <= i < j < |u| ensures FirstIndex(s, u[i]) < FirstIndex(s, u[j]) {
          assert u[i] == up[i] && u[i] in p;
          if j < |up| { assert u[j] == up[j] && u[j] in p; }
        }
      }
    }
  }

  /** One entry of a dropdown: what it shows and what selecting it sets. */
  datatype DropdownOption = DropdownOption(caption: string, value: string)

  /** Lines 57 and 73: `[{"label": g, "value": g} for g in df["gender"].unique()]`. */
  function GenderOptions(t: seq<Customer>): (opts: seq<DropdownOption>)
    ensures forall o :: o in opts ==> o.caption == o.value
  {
    var u := Unique(Genders(t));
    seq(|u|, i requires 0 <= i < |u| => DropdownOption(u[i], u[i]))
  }

  /**
   * The dropdown offers every gender that occurs in the table and nothing
   * else, each once, in order of first appearance.
   */
  lemma GenderOptionsAreDistinctGenders(t: seq<Customer>)
    ensures forall x :: x in t ==> exists o :: o in GenderOptions(t) && o.value == x.gender
    ensures forall o :: o in GenderOptions(t) ==> exists x :: x in t && x.gender == o.value
    ensures forall i, j :: 0 <= i < j < |GenderOptions(t)| ==> GenderOptions(t)[i].value != GenderOptions(t)[j].value
    ensures forall i, j :: 0 <= i < j < |GenderOptions(t)| ==>
      FirstIndex(Genders(t), GenderOptions(t)[i].value) < FirstIndex(Genders(t), GenderOptions(t)[j].value)
  {
    var u := Unique(Genders(t));
    var opts := GenderOptions(t);
    UniqueInFirstAppearanceOrder(Genders(t));
    forall x | x in t ensures exists o :: o in opts && o.value == x.gender {
      var i :| 0 <= i < |t| && t[i] == x;
      assert Genders(t)[i] == x.gender && Genders(t)[i] in Genders(t);
      var k :| 0 <= k < |u| && u[k] == x.gender;
      assert opts[k] in opts;
    }
    forall o | o in opts ensures exists x :: x in t && x.gender == o.value {
      var k :| 0 <= k < |opts| && opts[k] == o;
      assert u[k] in Genders(t);
      var i :| 0 <= i < |t| && Genders(t)[i] == u[k];
      assert t[i] in t;
    }
  }

  /** The value both dropdowns start with (lines 58 and 74), whatever the table holds. */
  const DefaultGender: string := "Male"
}
