/** The header list of the WHATWG Fetch Standard (section 2.2.2, "Headers")
    and the `Headers` object around it, reduced to what the proxy and the
    application use: copying a header list, `set` and `get`.

    Names are matched byte-case-insensitively, as the standard requires.
    A name keeps the case it was given; only iteration ("sort and
    combine"), and so a copy of a `Headers` object, lower-cases names. */
module FetchHeaders {
  import opened Wrappers

  /** One header: (name, value). */
  type Header = (string, string)

  /** ASCII lower-casing of one character ("byte-lowercase"). */
  function LowerChar(c: char): char {
    if 'A' <= c <= 'Z' then (c as int - 'A' as int + 'a' as int) as char else c
  }

  /** ASCII lower-casing of a string. */
  function Lower(s: string): string {
    seq(|s|, i requires 0 <= i < |s| => LowerChar(s[i]))
  }

  lemma LowerIdempotent(s: string)
    ensures Lower(Lower(s)) == Lower(s)
  {
  }

  /** `h` is a header whose name is a byte-case-insensitive match for `name`. */
  predicate Named(h: Header, name: string) {
    Lower(h.0) == Lower(name)
  }

  /** The header list "contains" `name`. */
  predicate ListContains(list: seq<Header>, name: string) {
    exists i :: 0 <= i < |list| && Named(list[i], name)
  }

  /** The values of the headers named `name`, in list order. */
  function ListValues(list: seq<Header>, name: string): seq<string> {
    if list == [] then []
    else if Named(list[0], name) then [list[0].1] + ListValues(list[1..], name)
    else ListValues(list[1..], name)
  }

  /** `list` without the headers named `name` (the standard's "delete"). */
  function ListRemove(list: seq<Header>, name: string): seq<Header> {
    if list == [] then []
    else if Named(list[0], name) then ListRemove(list[1..], name)
    else [list[0]] + ListRemove(list[1..], name)
  }

  /** The values joined by `separator`. */
  function Join(values: seq<string>, separator: string): string {
    if values == [] then ""
    else if |values| == 1 then values[0]
    else values[0] + separator + Join(values[1..], separator)
  }

  /** "get": null when the list does not contain `name`, otherwise the
      values of all headers named `name`, in order, separated by ", ". */
  function ListGet(list: seq<Header>, name: string): (r: Option<string>)
    ensures r.None? <==> !ListContains(list, name)
    ensures |ListValues(list, name)| == 1 ==> r == Some(ListValues(list, name)[0])
  {
    ValuesEmptyIff(list, name);
    var values := ListValues(list, name);
    if values == [] then None else Some(Join(values, ", "))
  }

  /** "set": when the list contains `name`, the first header so named takes
      `value` and the later ones are removed; otherwise (name, value) is
      appended, the name in the case it was given. */
  function ListSet(list: seq<Header>, name: string, value: string): seq<Header> {
    if list == [] then [(name, value)]
    else if Named(list[0], name) then [(list[0].0, value)] + ListRemove(list[1..], name)
    else [list[0]] + ListSet(list[1..], name, value)
  }

  /** `a` sorts strictly before `b`: code-point order, a proper prefix first. */
  predicate Before(a: string, b: string) {
    b != [] && (a == [] || a[0] < b[0] || (a[0] == b[0] && Before(a[1..], b[1..])))
  }

  /** Each name sorts strictly before the next one. */
  predicate Ascending(names: seq<string>) {
    forall i :: 0 < i < |names| ==> Before(names[i - 1], names[i])
  }

  /** No name occurs twice. */
  predicate Distinct(names: seq<string>) {
    forall i, j :: 0 <= i < j < |names| ==> names[i] != names[j]
  }

  /** `name` put into its place in an ascending list, unless already there. */
  function Insert(names: seq<string>, name: string): seq<string> {
    if names == [] then [name]
    else if name == names[0] then names
    else if Before(name, names[0]) then [name] + names
    else [names[0]] + Insert(names[1..], name)
  }

  /** "Convert header names to a sorted-lowercase set": the lower-cased
      names of the list, each once, in ascending order. */
  function SortedNames(list: seq<Header>): seq<string> {
    if list == [] then [] else Insert(SortedNames(list[1..]), Lower(list[0].0))
  }

  const SetCookie := "set-cookie"

  /** One header per value, all with the same name. */
  function EachValue(name: string, values: seq<string>): seq<Header> {
    if values == [] then [] else [(name, values[0])] + EachValue(name, values[1..])
  }

  /** The entries "sort and combine" emits for one name: every Set-Cookie
      value on its own, any other name once with the "get" value. */
  function Combined(name: string, list: seq<Header>): seq<Header> {
    if name == SetCookie then EachValue(name, ListValues(list, name))
    else [(name, Join(ListValues(list, name), ", "))]
  }

  function CombineAll(names: seq<string>, list: seq<Header>): seq<Header> {
    if names == [] then [] else Combined(names[0], list) + CombineAll(names[1..], list)
  }

  /** "Sort and combine": what iterating a `Headers` object yields, and so
      the list `new Headers(other)` starts from. */
  function SortAndCombine(list: seq<Header>): seq<Header> {
    CombineAll(SortedNames(list), list)
  }

  /** Every name in the list is already lower-case. */
  predicate AllLower(list: seq<Header>) {
    forall h :: h in list ==> Lower(h.0) == h.0
  }

  lemma {:induction false} ValuesEmptyIff(list: seq<Header>, name: string)
    ensures ListValues(list, name) == [] <==> !ListContains(list, name)
  {
    if list != [] {
      ValuesEmptyIff(list[1..], name);
      if ListContains(list[1..], name) {
        var i :| 0 <= i < |list[1..]| && Named(list[1..][i], name);
        assert Named(list[i + 1], name);
      }
      if ListContains(list, name) && !Named(list[0], name) {
        var i :| 0 <= i < |list| && Named(list[i], name);
        assert Named(list[1..][i - 1], name);
      }
    }
  }

  /** After "delete", no header of that name is left. */
  lemma {:induction false} RemoveLeavesNone(list: seq<Header>, name: string)
    ensures ListValues(ListRemove(list, name), name) == []
  {
    if list != [] {
      RemoveLeavesNone(list[1..], name);
    }
  }

  /** "delete" of a name the list does not hold changes nothing. */
  lemma {:induction false} RemoveAbsent(list: seq<Header>, name: string)
    requires ListValues(list, name) == []
    ensures ListRemove(list, name) == list
  {
    if list != [] {
      RemoveAbsent(list[1..], name);
    }
  }

  lemma RemoveTwice(list: seq<Header>, name: string)
    ensures ListRemove(ListRemove(list, name), name) == ListRemove(list, name)
  {
    RemoveLeavesNone(list, name);
    RemoveAbsent(ListRemove(list, name), name);
  }

  /** "delete" of one name leaves the values of every other name alone. */
  lemma {:induction false} RemoveKeepsOtherValues(list: seq<Header>, name: string, other: string)
    requires Lower(other) != Lower(name)
    ensures ListValues(ListRemove(list, name), other) == ListValues(list, other)
  {
    if list != [] {
      RemoveKeepsOtherValues(list[1..], name, other);
    }
  }

  /** After set(name, value), get(name) is exactly `value`: one header of
      that name is left and it carries the new value. */
  lemma {:induction false} SetValues(list: seq<Header>, name: string, value: string)
    ensures ListValues(ListSet(list, name, value), name) == [value]
    ensures ListGet(ListSet(list, name, value), name) == Some(value)
  {
    if list == [] {
      LowerIdempotent(name);
    } else if Named(list[0], name) {
      RemoveLeavesNone(list[1..], name);
    } else {
      SetValues(list[1..], name, value);
    }
  }

  /** set(name, value) leaves every header of another name where it was:
      with `name` deleted, the list is the same before and after. */
  lemma {:induction false} SetKeepsRest(list: seq<Header>, name: string, value: string)
    ensures ListRemove(ListSet(list, name, value), name) == ListRemove(list, name)
  {
    if list == [] {
      LowerIdempotent(name);
    } else if Named(list[0], name) {
      RemoveTwice(list[1..], name);
    } else {
      SetKeepsRest(list[1..], name, value);
    }
  }

  /** set(name, value) does not change what get returns for another name. */
  lemma {:induction false} SetKeepsOtherValues(list: seq<Header>, name: string, value: string, other: string)
    requires Lower(other) != Lower(name)
    ensures ListValues(ListSet(list, name, value), other) == ListValues(list, other)
    ensures ListGet(ListSet(list, name, value), other) == ListGet(list, other)
  {
    if list == [] {
      LowerIdempotent(name);
    } else if Named(list[0], name) {
      RemoveKeepsOtherValues(list[1..], name, other);
    } else {
      SetKeepsOtherValues(list[1..], name, value, other);
    }
  }

  /** Setting the same header twice gives the list that setting it once gives. */
  lemma {:induction false} SetIdempotent(list: seq<Header>, name: string, value: string)
    ensures ListSet(ListSet(list, name, value), name, value) == ListSet(list, name, value)
  {
    if list == [] {
      LowerIdempotent(name);
    } else if Named(list[0], name) {
      RemoveTwice(list[1..], name);
      var rest := ListRemove(list[1..], name);
      assert ([(list[0].0, value)] + rest)[1..] == rest;
    } else {
      SetIdempotent(list[1..], name, value);
      assert ([list[0]] + ListSet(list[1..], name, value))[1..] == ListSet(list[1..], name, value);
    }
  }

  /** The standard's wording of "set", first half: a name the list does not
      contain is appended at the end. */
  lemma {:induction false} SetAppendsWhenAbsent(list: seq<Header>, name: string, value: string)
    requires !ListContains(list, name)
    ensures ListSet(list, name, value) == list + [(name, value)]
  {
    if list != [] {
      assert !Named(list[0], name);
      forall j | 0 <= j < |list[1..]| ensures !Named(list[1..][j], name) {
        assert list[1..][j] == list[j + 1];
      }
      SetAppendsWhenAbsent(list[1..], name, value);
      assert list == [list[0]] + list[1..];
    }
  }

  /** The standard's wording of "set", second half: the first header named
      `name` (at index `i`) takes the value in place and every later header
      of that name is removed. */
  lemma {:induction false} SetReplacesFirst(list: seq<Header>, name: string, value: string, i: nat)
    requires i < |list| && Named(list[i], name)
    requires forall j :: 0 <= j < i ==> !Named(list[j], name)
    ensures ListSet(list, name, value) == list[..i] + [(list[i].0, value)] + ListRemove(list[i + 1..], name)
  {
    if i > 0 {
      var tail := list[1..];
      assert !Named(list[0], name);
      assert forall j :: 0 <= j < i - 1 ==> !Named(tail[j], name) by {
        forall j | 0 <= j < i - 1 ensures !Named(tail[j], name) {
          assert tail[j] == list[j + 1];
        }
      }
      SetReplacesFirst(tail, name, value, i - 1);
      assert tail[i - 1] == list[i];
      assert tail[i..] == list[i + 1..];
      assert list[..i] == [list[0]] + tail[..i - 1];
    }
  }

  lemma {:induction false} BeforeTotal(a: string, b: string)
    requires a != b
    ensures Before(a, b) || Before(b, a)
  {
    if a != [] && b != [] && a[0] == b[0] {
      assert a == [a[0]] + a[1..] && b == [b[0]] + b[1..];
      BeforeTotal(a[1..], b[1..]);
    }
  }

  lemma {:induction false} BeforeIrreflexive(a: string)
    ensures !Before(a, a)
  {
    if a != [] {
      BeforeIrreflexive(a[1..]);
    }
  }

  lemma {:induction false} BeforeTransitive(a: string, b: string, c: string)
    requires Before(a, b) && Before(b, c)
    ensures Before(a, c)
  {
    if a != [] && a[0] == b[0] && b[0] == c[0] {
      BeforeTransitive(a[1..], b[1..], c[1..]);
    }
  }

  /** A name sorting before the head of an ascending list is not in it. */
  lemma {:induction false} BeforeHeadAbsent(names: seq<string>, name: string)
    requires Ascending(names) && names != [] && Before(name, names[0])
    ensures name !in names
  {
    BeforeIrreflexive(name);
    if |names| > 1 {
      BeforeTransitive(name, names[0], names[1]);
      assert Ascending(names[1..]);
      BeforeHeadAbsent(names[1..], name);
      assert names == [names[0]] + names[1..];
    }
  }

  lemma {:induction false} InsertProperties(names: seq<string>, name: string)
    requires Ascending(names) && Distinct(names)
    ensures Ascending(Insert(names, name)) && Distinct(Insert(names, name))
    ensures forall n :: n in Insert(names, name) <==> n in names || n == name
    ensures Insert(names, name)[0] == name || Insert(names, name)[0] == names[0]
  {
    if names != [] && name != names[0] && Before(name, names[0]) {
      BeforeHeadAbsent(names, name);
      var r := [name] + names;
      forall i, j | 0 <= i < j < |r| ensures r[i] != r[j] {
        if i > 0 {
          assert r[i] == names[i - 1] && r[j] == names[j - 1];
        }
      }
    } else if names != [] && name != names[0] {
      var tail := names[1..];
      assert Ascending(tail) && Distinct(tail);
      InsertProperties(tail, name);
      BeforeTotal(name, names[0]);
      assert names[0] !in tail by {
        forall k | 0 <= k < |tail| ensures tail[k] != names[0] {
          assert tail[k] == names[k + 1];
        }
      }
      assert names == [names[0]] + tail;
      var r := [names[0]] + Insert(tail, name);
      forall i | 0 < i < |r| ensures Before(r[i - 1], r[i]) {
        if i == 1 {
          assert r[1] == Insert(tail, name)[0];
        } else {
          assert r[i - 1] == Insert(tail, name)[i - 2] && r[i] == Insert(tail, name)[i - 1];
        }
      }
      forall i, j | 0 <= i < j < |r| ensures r[i] != r[j] {
        if i == 0 {
          assert r[j] in Insert(tail, name);
        } else {
          assert r[i] == Insert(tail, name)[i - 1] && r[j] == Insert(tail, name)[j - 1];
        }
      }
    }
  }

  lemma {:induction false} ContainsSplit(list: seq<Header>, name: string)
    requires list != []
    ensures ListContains(list, name) <==> Named(list[0], name) || ListContains(list[1..], name)
  {
    ValuesEmptyIff(list, name);
    ValuesEmptyIff(list[1..], name);
  }

  /** The sorted names are ascending, each once, and are exactly the
      lower-case names the list contains. */
  lemma {:induction false} SortedNamesProperties(list: seq<Header>)
    ensures Ascending(SortedNames(list)) && Distinct(SortedNames(list))
    ensures forall n :: n in SortedNames(list) <==> Lower(n) == n && ListContains(list, n)
  {
    if list != [] {
      SortedNamesProperties(list[1..]);
      InsertProperties(SortedNames(list[1..]), Lower(list[0].0));
      LowerIdempotent(list[0].0);
      forall n ensures n in SortedNames(list) <==> Lower(n) == n && ListContains(list, n) {
        ContainsSplit(list, n);
      }
    }
  }

  lemma {:induction false} ValuesAppend(a: seq<Header>, b: seq<Header>, name: string)
    ensures ListValues(a + b, name) == ListValues(a, name) + ListValues(b, name)
  {
    if a != [] {
      ValuesAppend(a[1..], b, name);
      assert (a + b)[0] == a[0];
      assert (a + b)[1..] == a[1..] + b;
    } else {
      assert a + b == b;
    }
  }

  /** Named lookups depend on the lower-cased name only. */
  lemma {:induction false} ValuesByLower(list: seq<Header>, a: string, b: string)
    requires Lower(a) == Lower(b)
    ensures ListValues(list, a) == ListValues(list, b)
  {
    if list != [] {
      ValuesByLower(list[1..], a, b);
    }
  }

  lemma {:induction false} EachValueValues(name: string, values: seq<string>, query: string)
    requires Lower(name) == name
    ensures ListValues(EachValue(name, values), query) == if Lower(query) == name then values else []
  {
    if values != [] {
      EachValueValues(name, values[1..], query);
    }
  }

  lemma CombinedValues(name: string, list: seq<Header>, query: string)
    requires Lower(name) == name
    ensures ListValues(Combined(name, list), query) ==
      if Lower(query) != name then []
      else if name == SetCookie then ListValues(list, query)
      else [Join(ListValues(list, query), ", ")]
  {
    if Lower(query) == name {
      ValuesByLower(list, name, query);
    }
    if name == SetCookie {
      EachValueValues(name, ListValues(list, name), query);
    }
  }

  lemma {:induction false} CombineAllValues(names: seq<string>, list: seq<Header>, query: string)
    requires Distinct(names)
    requires forall n :: n in names ==> Lower(n) == n
    ensures ListValues(CombineAll(names, list), query) ==
      if Lower(query) !in names then []
      else if Lower(query) == SetCookie then ListValues(list, query)
      else [Join(ListValues(list, query), ", ")]
  {
    if names != [] {
      var tail := names[1..];
      assert Distinct(tail);
      assert names == [names[0]] + tail;
      CombineAllValues(tail, list, query);
      ValuesAppend(Combined(names[0], list), CombineAll(tail, list), query);
      CombinedValues(names[0], list, query);
      if Lower(query) == names[0] {
        assert names[0] !in tail by {
          forall k | 0 <= k < |tail| ensures tail[k] != names[0] {
            assert tail[k] == names[k + 1];
          }
        }
      }
    }
  }

  lemma {:induction false} CombineAllLower(names: seq<string>, list: seq<Header>)
    requires forall n :: n in names ==> Lower(n) == n
    ensures AllLower(CombineAll(names, list))
  {
    if names != [] {
      assert names[0] in names;
      CombineAllLower(names[1..], list);
      var name := names[0];
      if name == SetCookie {
        EachValueLower(name, ListValues(list, name));
      }
    }
  }

  lemma {:induction false} EachValueLower(name: string, values: seq<string>)
    requires Lower(name) == name
    ensures AllLower(EachValue(name, values))
  {
    if values != [] {
      EachValueLower(name, values[1..]);
    }
  }

  /** Without Set-Cookie headers, "sort and combine" gives one header per
      lower-cased name, in ascending order, holding the "get" value. */
  lemma {:induction false} CombineAllShape(names: seq<string>, list: seq<Header>)
    requires SetCookie !in names
    ensures |CombineAll(names, list)| == |names|
    ensures forall i :: 0 <= i < |names| ==>
      CombineAll(names, list)[i] == (names[i], Join(ListValues(list, names[i]), ", "))
  {
    if names != [] {
      CombineAllShape(names[1..], list);
    }
  }

  /** The copy `new Headers(other)` starts from: its names are the
      lower-cased names of `list`, ascending and each once; without
      Set-Cookie, each holds the values of that name joined by ", ". */
  lemma SortAndCombineShape(list: seq<Header>)
    ensures Ascending(SortedNames(list)) && Distinct(SortedNames(list))
    ensures forall n :: n in SortedNames(list) <==> Lower(n) == n && ListContains(list, n)
    ensures !ListContains(list, SetCookie) ==>
      |SortAndCombine(list)| == |SortedNames(list)| &&
      forall i :: 0 <= i < |SortedNames(list)| ==>
        SortAndCombine(list)[i] == (SortedNames(list)[i], Join(ListValues(list, SortedNames(list)[i]), ", "))
  {
    SortedNamesProperties(list);
    if !ListContains(list, SetCookie) {
      CombineAllShape(SortedNames(list), list);
    }
  }

  /** The copy has lower-case names and answers every `get` as the
      original list does. */
  lemma SortAndCombineKeepsGet(list: seq<Header>, name: string)
    ensures AllLower(SortAndCombine(list))
    ensures ListGet(SortAndCombine(list), name) == ListGet(list, name)
  {
    SortedNamesProperties(list);
    CombineAllLower(SortedNames(list), list);
    CombineAllValues(SortedNames(list), list, name);
    LowerIdempotent(name);
    ValuesByLower(list, name, Lower(name));
    ValuesEmptyIff(list, name);
    ValuesEmptyIff(list, Lower(name));
  }

  /** The `Headers` object: a header list the program updates in place. */
  class Headers {
    var list: seq<Header>

    /** `new Headers(init)` for `init` another `Headers` object: the copy
        is built from what iterating `init` yields. */
    constructor (init: seq<Header>)
      ensures list == SortAndCombine(init)
    {
      list := SortAndCombine(init);
    }

    /** `headers.set(name, value)`. */
    method Set(name: string, value: string)
      modifies this
      ensures list == ListSet(old(list), name, value)
    {
      list := ListSet(list, name, value);
    }
  }
}
