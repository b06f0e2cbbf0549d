/**
 * The handful of Python string semantics the handlers rely on:
 * truthiness of an optional string, prefix slicing `s[:n]`,
 * `s.split(c)[0]` and the `repr` of a list of strings.
 */
module PyText {
  import opened Wrappers

  /** `bool(x)` for an optional string: `None` and `""` are falsy. */
  predicate Truthy(s: Option<string>) {
    s.Some? && s.value != ""
  }

  /** `s[:n]`: the first `n` characters, or all of `s` when it is shorter. */
  function Head(s: string, n: nat): (r: string)
    ensures |r| == if |s| <= n then |s| else n
    ensures r <= s
  {
    if |s| <= n then s else s[..n]
  }

  /** `s.split(c)[0]`: the text before the first `c`, or all of `s` when `c` does not occur. */
  function BeforeFirst(s: string, c: char): (r: string)
    ensures r <= s
    ensures c !in r
    ensures |r| < |s| ==> s[|r|] == c
  {
    if s == [] then []
    else if s[0] == c then []
    else [s[0]] + BeforeFirst(s[1..], c)
  }

  /**
   * `repr(names)` for a list of identifier-like names: `['a', 'b']`. Python
   * would also escape backslashes and non-printable characters; the names
   * here are schema field names, which have none.
   */
  function ListRepr(names: seq<string>): (r: string)
    ensures |r| >= 2 && r[0] == '[' && r[|r| - 1] == ']'
    ensures names == [] ==> r == "[]"
  {
    "[" + JoinQuoted(names) + "]"
  }

  /** The items of a list repr, each in single quotes, separated by ", ". */
  function JoinQuoted(names: seq<string>): (r: string)
    ensures r == "" <==> names == []
    ensures names != [] ==> r[0] == '\'' && r[|r| - 1] == '\''
  {
    if names == [] then ""
    else if |names| == 1 then "'" + names[0] + "'"
    else "'" + names[0] + "', " + JoinQuoted(names[1..])
  }

  /** No item contains a single quote, so each one is quoted with `'` and read back up to the next `'`. */
  predicate Quoteless(names: seq<string>) {
    forall i | 0 <= i < |names| :: '\'' !in names[i]
  }

  /** Reads quoted items separated by ", " back: the inverse of `JoinQuoted`. */
  function ReadQuoted(s: string): Option<seq<string>>
    decreases |s|
  {
    if s == [] then Some([])
    else if s[0] != '\'' then None
    else
      var name := BeforeFirst(s[1..], '\'');
      if |name| == |s| - 1 then None
      else
        var rest := s[|name| + 2..];
        if rest == [] then Some([name])
        else if |rest| < 2 || rest[..2] != ", " then None
        else match ReadQuoted(rest[2..])
          case Some(more) => if more == [] then None else Some([name] + more)
          case None => None
  }

  /** Reads a list repr back into its items. */
  function ReadList(s: string): Option<seq<string>> {
    if |s| >= 2 && s[0] == '[' && s[|s| - 1] == ']' then ReadQuoted(s[1..|s| - 1]) else None
  }

  lemma {:induction false} BeforeFirstAppend(a: string, c: char, t: string)
    requires c !in a
    ensures BeforeFirst(a + [c] + t, c) == a
  {
    if a != [] {
      assert (a + [c] + t)[1..] == a[1..] + [c] + t;
      BeforeFirstAppend(a[1..], c, t);
    }
  }

  lemma ReadOneQuoted(name: string)
    requires '\'' !in name
    ensures ReadQuoted("'" + name + "'") == Some([name])
  {
    var s := "'" + name + "'";
    assert s[1..] == name + "'" + "";
    BeforeFirstAppend(name, '\'', "");
    assert s[|name| + 2..] == [];
  }

  lemma ReadQuotedCons(name: string, more: string, names: seq<string>)
    requires '\'' !in name
    requires ReadQuoted(more) == Some(names) && names != []
    ensures ReadQuoted("'" + name + "', " + more) == Some([name] + names)
  {
    var s := "'" + name + "', " + more;
    assert s[1..] == name + "'" + (", " + more);
    BeforeFirstAppend(name, '\'', ", " + more);
    var rest := s[|name| + 2..];
    assert rest == ", " + more;
    assert rest[..2] == ", " && rest[2..] == more;
  }

  lemma QuotelessTail(names: seq<string>)
    requires Quoteless(names) && names != []
    ensures '\'' !in names[0] && Quoteless(names[1..])
  {
    forall i | 0 <= i < |names[1..]| ensures '\'' !in names[1..][i] {
      assert names[1..][i] == names[i + 1];
    }
  }

  lemma ReadQuotedJoinStep(names: seq<string>)
    requires |names| > 1 && '\'' !in names[0]
    requires ReadQuoted(JoinQuoted(names[1..])) == Some(names[1..])
    ensures ReadQuoted(JoinQuoted(names)) == Some(names)
  {
    var more := JoinQuoted(names[1..]);
    assert JoinQuoted(names) == "'" + names[0] + "', " + more;
    ReadQuotedCons(names[0], more, names[1..]);
    assert names == [names[0]] + names[1..];
  }

  /** The repr of a list of quoteless names determines the list: each name appears in quotes, in order. */
  lemma {:induction false} ReadQuotedJoin(names: seq<string>)
    requires Quoteless(names)
    ensures ReadQuoted(JoinQuoted(names)) == Some(names)
    decreases |names|
  {
    if names != [] {
      QuotelessTail(names);
      if |names| == 1 {
        ReadOneQuoted(names[0]);
        assert names == [names[0]];
      } else {
        ReadQuotedJoin(names[1..]);
        ReadQuotedJoinStep(names);
      }
    }
  }

  /** The `ParameterError` detail names each failing field, in quotes and in order. */
  lemma ListReprReadsBack(names: seq<string>)
    requires Quoteless(names)
    ensures ReadList(ListRepr(names)) == Some(names)
  {
    var r := ListRepr(names);
    assert r[1..|r| - 1] == JoinQuoted(names);
    ReadQuotedJoin(names);
  }
}
