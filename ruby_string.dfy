/**
 * The two Ruby core String operations the IP allow-list relies on:
 * `String#strip` and `String#split(",")`, as Ruby defines them.
 */
module RubyString {

  /** The characters `String#strip` removes: NUL, tab, line feed, vertical
      tab, form feed, carriage return and space. */
  predicate IsSpace(c: char) {
    c == '\0' || c == ' ' || ('\t' <= c <= '\r')
  }

  predicate AllSpace(s: string) {
    forall k :: 0 <= k < |s| ==> IsSpace(s[k])
  }

  /** `String#lstrip`: what is left is a suffix of `s`, everything before it
      is whitespace, and it does not start with whitespace. */
  function StripLeading(s: string): (r: string)
    ensures |r| <= |s| && r == s[|s| - |r|..]
    ensures forall k :: 0 <= k < |s| - |r| ==> IsSpace(s[k])
    ensures r != [] ==> !IsSpace(r[0])
  {
    if s != [] && IsSpace(s[0]) then StripLeading(s[1..]) else s
  }

  /** `String#rstrip`: what is left is a prefix of `s`, everything after it
      is whitespace, and it does not end with whitespace. */
  function StripTrailing(s: string): (r: string)
    ensures |r| <= |s| && r == s[..|r|]
    ensures forall k :: |r| <= k < |s| ==> IsSpace(s[k])
    ensures r != [] ==> !IsSpace(r[|r| - 1])
  {
    if s != [] && IsSpace(s[|s| - 1]) then StripTrailing(s[..|s| - 1]) else s
  }

  /** `String#strip`: the infix of `s` left after removing the leading and the
      trailing whitespace. */
  function Strip(s: string): (r: string)
    ensures |r| <= |StripLeading(s)| <= |s|
    ensures var i := |s| - |StripLeading(s)|;
      && r == s[i..i + |r|]
      && (forall k :: 0 <= k < i ==> IsSpace(s[k]))
      && (forall k :: i + |r| <= k < |s| ==> IsSpace(s[k]))
    ensures r != [] ==> !IsSpace(r[0]) && !IsSpace(r[|r| - 1])
  {
    StripTrailing(StripLeading(s))
  }

  /** A string whose ends are not whitespace (the empty string included). */
  predicate Trimmed(c: string) {
    c == [] || (!IsSpace(c[0]) && !IsSpace(c[|c| - 1]))
  }

  lemma {:induction false} StripLeadingOfPadded(p: string, t: string)
    requires AllSpace(p)
    requires t == [] || !IsSpace(t[0])
    ensures StripLeading(p + t) == t
  {
    if p != [] {
      assert (p + t)[1..] == p[1..] + t;
      StripLeadingOfPadded(p[1..], t);
    } else {
      assert p + t == t;
    }
  }

  lemma {:induction false} StripTrailingOfPadded(t: string, q: string)
    requires AllSpace(q)
    requires t == [] || !IsSpace(t[|t| - 1])
    ensures StripTrailing(t + q) == t
  {
    if q != [] {
      assert (t + q)[..|t + q| - 1] == t + q[..|q| - 1];
      StripTrailingOfPadded(t, q[..|q| - 1]);
    } else {
      assert t + q == t;
    }
  }

  /** Characterises `Strip`: a trimmed core between two runs of whitespace
      is exactly what `Strip` returns. */
  lemma {:induction false} StripOfPadded(p: string, c: string, q: string)
    requires AllSpace(p) && AllSpace(q) && Trimmed(c)
    ensures Strip(p + c + q) == c
  {
    if c == [] {
      assert p + c + q == [] + (p + q);
      StripTrailingOfPadded([], p + q);
      assert StripTrailing(p + q) == [];
      assert AllSpace(StripLeading(p + q));
      assert StripLeading(p + q) == [];
    } else {
      assert p + c + q == p + (c + q);
      StripLeadingOfPadded(p, c + q);
      StripTrailingOfPadded(c, q);
    }
  }

  /** Stripping twice is stripping once. */
  lemma StripIdempotent(s: string)
    ensures Strip(Strip(s)) == Strip(s)
  {
    var c := Strip(s);
    assert [] + c + [] == c;
    StripOfPadded([], c, []);
  }

  /** Every comma-separated field of `s`, empty ones included; no field
      holds a comma. */
  function Fields(s: string): (r: seq<string>)
    ensures |r| >= 1
    ensures forall i :: 0 <= i < |r| ==> ',' !in r[i]
  {
    if s == [] then [[]]
    else
      var rest := Fields(s[1..]);
      if s[0] == ',' then [[]] + rest else [[s[0]] + rest[0]] + rest[1..]
  }

  /** There is one more field than there are commas. */
  lemma {:induction false} FieldsCount(s: string)
    ensures |Fields(s)| == multiset(s)[','] + 1
  {
    if s != [] {
      FieldsCount(s[1..]);
      assert s == [s[0]] + s[1..];
      assert multiset(s) == multiset([s[0]]) + multiset(s[1..]);
    }
  }

  /** `Array#join(",")`. */
  function Join(parts: seq<string>): string {
    if parts == [] then []
    else if |parts| == 1 then parts[0]
    else parts[0] + "," + Join(parts[1..])
  }

  lemma JoinCons(x: string, rest: seq<string>)
    ensures Join([x] + rest) == if rest == [] then x else x + "," + Join(rest)
  {
    assert ([x] + rest)[1..] == rest;
  }

  /** Joining the fields with commas gives back the string. */
  lemma {:induction false} JoinFields(s: string)
    ensures Join(Fields(s)) == s
  {
    if s != [] {
      var rest := Fields(s[1..]);
      JoinFields(s[1..]);
      if s[0] == ',' {
        JoinCons([], rest);
        assert s == "," + s[1..];
      } else {
        var tail := rest[1..];
        assert rest == [rest[0]] + tail;
        JoinCons(rest[0], tail);
        JoinCons([s[0]] + rest[0], tail);
        assert s == [s[0]] + s[1..];
      }
    }
  }

  /** A comma-free prefix merges into the first field of what follows. */
  lemma {:induction false} FieldsOfCommaFreePrefix(p: string, t: string)
    requires ',' !in p
    ensures Fields(p + t) == [p + Fields(t)[0]] + Fields(t)[1..]
  {
    var f := Fields(t);
    if p == [] {
      assert p + t == t;
      assert p + f[0] == f[0];
      assert f == [f[0]] + f[1..];
    } else {
      assert (p + t)[1..] == p[1..] + t;
      assert (p + t)[0] == p[0];
      FieldsOfCommaFreePrefix(p[1..], t);
      var rest := Fields(p[1..] + t);
      assert rest[0] == p[1..] + f[0];
      assert rest[1..] == f[1..];
      assert [p[0]] + (p[1..] + f[0]) == p + f[0];
    }
  }

  /** Splitting the comma-join of comma-free parts gives back the parts. */
  lemma {:induction false} FieldsJoin(parts: seq<string>)
    requires parts != []
    requires forall i :: 0 <= i < |parts| ==> ',' !in parts[i]
    ensures Fields(Join(parts)) == parts
  {
    if |parts| == 1 {
      FieldsOfCommaFreePrefix(parts[0], []);
      assert parts[0] + [] == parts[0];
    } else {
      var j := Join(parts[1..]);
      assert Join(parts) == parts[0] + ("," + j);
      FieldsJoin(parts[1..]);
      assert ("," + j)[0] == ',' && ("," + j)[1..] == j;
      var g := Fields("," + j);
      assert g == [[]] + parts[1..];
      FieldsOfCommaFreePrefix(parts[0], "," + j);
      assert g[0] == [] && g[1..] == parts[1..];
      assert parts[0] + g[0] == parts[0];
      assert parts == [parts[0]] + parts[1..];
    }
  }

  /** Ruby drops trailing empty fields: what is left is a prefix of `fields`,
      everything after it is empty, and it does not end with an empty field. */
  function DropTrailingEmpty(fields: seq<string>): (r: seq<string>)
    ensures |r| <= |fields| && r == fields[..|r|]
    ensures forall k :: |r| <= k < |fields| ==> fields[k] == []
    ensures r != [] ==> r[|r| - 1] != []
  {
    if fields != [] && fields[|fields| - 1] == [] then DropTrailingEmpty(fields[..|fields| - 1])
    else fields
  }

  /** `String#split(",")`: the comma-separated fields with only the trailing
      empty ones dropped; no field holds a comma, the last is not empty, and
      the empty string splits into no fields. */
  function Split(s: string): (r: seq<string>)
    ensures |r| <= |Fields(s)| && r == Fields(s)[..|r|]
    ensures forall k :: |r| <= k < |Fields(s)| ==> Fields(s)[k] == []
    ensures forall i :: 0 <= i < |r| ==> ',' !in r[i]
    ensures r != [] ==> r[|r| - 1] != []
    ensures s == [] ==> r == []
  {
    assert Fields([]) == [[]];
    DropTrailingEmpty(Fields(s))
  }

  lemma SplitEmpty()
    ensures Split("") == []
  {
    assert Fields("") == [[]];
  }

  /** `Split` inverts `Join` on comma-free parts the last of which is not
      empty. */
  lemma SplitJoin(parts: seq<string>)
    requires forall i :: 0 <= i < |parts| ==> ',' !in parts[i]
    requires parts != [] ==> parts[|parts| - 1] != []
    ensures Split(Join(parts)) == parts
  {
    if parts == [] {
      SplitEmpty();
    } else {
      FieldsJoin(parts);
    }
  }
}
