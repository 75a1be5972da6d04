/** Names in alphabetical order, as `sort.Strings` and ORDER BY put them. */
module NameOrder {
  import opened Text

  ghost predicate SortedNames(names: seq<string>) {
    forall i, j :: 0 <= i < j < |names| ==> Less(names[i], names[j])
  }

  method InsertName(names: seq<string>, name: string) returns (out: seq<string>)
    requires SortedNames(names) && name !in names
    ensures SortedNames(out)
    ensures forall x :: x in out <==> x in names || x == name
  {
    hide Less;
    var i := |names|;
    while i > 0 && Less(name, names[i - 1])
      invariant 0 <= i <= |names|
      invariant forall j :: i <= j < |names| ==> Less(name, names[j])
    {
      i := i - 1;
    }
    out := names[..i] + [name] + names[i..];
    forall j | 0 <= j < i ensures Less(names[j], name) {
      LessTotal(names[i - 1], name);
      assert names[i - 1] in names;
      if j < i - 1 { LessTransitive(names[j], names[i - 1], name); }
    }
    assert forall x :: x in names <==> x in names[..i] || x in names[i..] by { assert names == names[..i] + names[i..]; }
  }

  method SortNames(keys: set<string>) returns (names: seq<string>)
    ensures SortedNames(names)
    ensures forall x :: x in names <==> x in keys
  {
    names := [];
    var left := keys;
    while left != {}
      invariant left <= keys && SortedNames(names)
      invariant forall x :: x in names <==> x in keys && x !in left
      decreases left
    {
      var name :| name in left;
      names := InsertName(names, name);
      left := left - {name};
    }
  }
}
