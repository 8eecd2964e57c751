/**
 * Entity field names (camelCase) and table column names (snake_case).
 * An upper-case letter becomes an underscore followed by its lower-case form;
 * every other character, digits and underscores included, is kept as it is.
 */
module Naming {

  predicate IsUpper(c: char) { 'A' <= c <= 'Z' }

  predicate IsLower(c: char) { 'a' <= c <= 'z' }

  function ToLower(c: char): (r: char)
    requires IsUpper(c)
    ensures IsLower(r) && !IsUpper(r)
  {
    (c as int + 32) as char
  }

  function ToUpper(c: char): (r: char)
    requires IsLower(c)
    ensures IsUpper(r)
  {
    (c as int - 32) as char
  }

  /** True when no character of `s` is an upper-case letter. */
  predicate NoUpper(s: string) {
    forall i :: 0 <= i < |s| ==> !IsUpper(s[i])
  }

  /** True when `s` contains no underscore. */
  predicate NoUnderscore(s: string) {
    forall i :: 0 <= i < |s| ==> s[i] != '_'
  }

  function CountUpper(s: string): nat {
    if s == [] then 0 else (if IsUpper(s[0]) then 1 else 0) + CountUpper(s[1..])
  }

  /**
   * The table column of an entity field. Total: any string converts,
   * whether or not a schema declares it. The result has no upper-case
   * letter, and each upper-case letter of the input costs one extra
   * character (its underscore).
   */
  function ToTableField(name: string): (r: string)
    ensures NoUpper(r)
    ensures |r| == |name| + CountUpper(name)
  {
    if name == [] then []
    else if IsUpper(name[0]) then ['_', ToLower(name[0])] + ToTableField(name[1..])
    else [name[0]] + ToTableField(name[1..])
  }

  /**
   * Maps a column name back to a field name: an underscore followed by a
   * lower-case letter becomes that letter in upper case. Only the proofs use
   * it; the mapper itself never converts a column back.
   */
  function FromTableField(column: string): string {
    if column == [] then []
    else if |column| >= 2 && column[0] == '_' && IsLower(column[1]) then
      [ToUpper(column[1])] + FromTableField(column[2..])
    else [column[0]] + FromTableField(column[1..])
  }

  /** The conversion distributes over concatenation: it works character by character. */
  lemma {:induction false} ToTableFieldAppend(a: string, b: string)
    ensures ToTableField(a + b) == ToTableField(a) + ToTableField(b)
  {
    if a == [] {
      assert a + b == b;
    } else {
      assert (a + b)[0] == a[0];
      assert (a + b)[1..] == a[1..] + b;
      ToTableFieldAppend(a[1..], b);
    }
  }

  /** A name is its own column exactly when it has no upper-case letter. */
  lemma {:induction false} ToTableFieldIdentity(name: string)
    ensures ToTableField(name) == name <==> NoUpper(name)
  {
    if name != [] && NoUpper(name) {
      assert NoUpper(name[1..]) by {
        forall i | 0 <= i < |name[1..]| ensures !IsUpper(name[1..][i]) {
          assert name[1..][i] == name[i + 1];
        }
      }
      ToTableFieldIdentity(name[1..]);
      assert name == [name[0]] + name[1..];
    }
  }

  /** Converting a column name again changes nothing. */
  lemma ToTableFieldIdempotent(name: string)
    ensures ToTableField(ToTableField(name)) == ToTableField(name)
  {
    ToTableFieldIdentity(ToTableField(name));
  }

  /** One camel hump between two lower-case runs becomes `_` plus its lower-case letter. */
  lemma HumpConverts(head: string, c: char, tail: string)
    requires NoUpper(head) && NoUpper(tail) && IsUpper(c)
    ensures ToTableField(head + [c] + tail) == head + ['_', ToLower(c)] + tail
  {
    ToTableFieldAppend(head + [c], tail);
    ToTableFieldAppend(head, [c]);
    ToTableFieldIdentity(head);
    ToTableFieldIdentity(tail);
    assert ToTableField([c]) == ['_', ToLower(c)] + ToTableField([]);
  }

  /** For underscore-free names, the column name determines the field name. */
  lemma {:induction false} FromToTableField(name: string)
    requires NoUnderscore(name)
    ensures FromTableField(ToTableField(name)) == name
  {
    if name != [] {
      assert NoUnderscore(name[1..]) by {
        forall i | 0 <= i < |name[1..]| ensures name[1..][i] != '_' {
          assert name[1..][i] == name[i + 1];
        }
      }
      FromToTableField(name[1..]);
      var rest := ToTableField(name[1..]);
      if IsUpper(name[0]) {
        var t := ['_', ToLower(name[0])] + rest;
        assert t[2..] == rest;
        assert FromTableField(t) == [ToUpper(ToLower(name[0]))] + FromTableField(rest);
      } else {
        var t := [name[0]] + rest;
        assert t[1..] == rest;
        assert FromTableField(t) == [name[0]] + FromTableField(rest);
      }
      assert name == [name[0]] + name[1..];
    }
  }

  /** Distinct underscore-free field names never share a column. */
  lemma ToTableFieldInjective(f: string, g: string)
    requires NoUnderscore(f) && NoUnderscore(g)
    requires ToTableField(f) == ToTableField(g)
    ensures f == g
  {
    FromToTableField(f);
    FromToTableField(g);
  }

  /** Converts every name of `names`, keeping their order. */
  function ToTableFields(names: seq<string>): (r: seq<string>)
    ensures |r| == |names|
    ensures forall i :: 0 <= i < |names| ==> r[i] == ToTableField(names[i])
  {
    if names == [] then [] else [ToTableField(names[0])] + ToTableFields(names[1..])
  }
}
